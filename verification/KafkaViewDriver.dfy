/**
 The exporter of a materialized view, which drives the Kafka sink: it stages one epoch at a time, saves the envelope
 and its cursor before asking for the commit, and after any failure resumes from what it saved.
 */
module KafkaViewDriver {
  import opened Prelude
  import opened KafkaSinkMachine
  import opened KafkaBroker
  import opened KafkaProtocol
  import opened KafkaInvariant
  import opened KafkaExactlyOnce
  import opened KafkaOrder
  import opened Paths

  /** The durable cursor: the number of epochs staged so far, and whether the last of them is not known to be
      delivered. */
  datatype Progress = Progress(transaction: nat, pending: bool)

  /** What `stage_next` and `deliver_next` do next; everything but the exporter's own calls and writes is left open.
      With a pending epoch they only commit what was just staged and saved, or recover what was saved. */
  ghost predicate DriverStep(w: World, p: Progress, s: Step) {
    match s
    case Client(ev, _, _, _) =>
      w.process.Up? &&
      (match ev
       case PreCommitPayloadCall(epoch, _, _) => !p.pending && epoch == p.transaction
       case CommitCall(epoch, _, _) =>
         p.pending && epoch + 1 == p.transaction
         && w.process.local.pc.Ready? && w.process.local.pc.last.Staged? && w.process.local.pc.last.epoch == epoch
       case RecoverCall(epoch, handle) =>
         p.pending && epoch + 1 == p.transaction
         && epoch in w.ledger.handles && handle == RowHandle(w.me, w.topic, epoch, w.ledger.handles[epoch])
       case SetClusterCommitted(epoch) => p.pending && epoch + 1 == p.transaction
       case PreCommitCall(_, _) => false
       case AbortCall(_) => false
       case NoopRecoverCall => false
       case _ => true)
    case Persist => !p.pending
    case Confirm => p.pending
    case Forget => false
    case _ => true
  }

  function AfterStep(p: Progress, s: Step): Progress {
    match s
    case Persist => Progress(p.transaction + 1, true)
    case Confirm => p.(pending := false)
    case _ => p
  }

  datatype Exporter = Exporter(world: World, progress: Progress)

  /** One step of the exporter and its world; `None` if it cannot happen. */
  ghost function Advance(x: Exporter, s: Step): Option<Exporter> {
    if Possible(x.world, s) && DriverStep(x.world, x.progress, s)
    then Some(Exporter(Do(x.world, s), AfterStep(x.progress, s)))
    else None
  }

  ghost function Exporting(): (Exporter, Step) -> Option<Exporter> { (x, s) => Advance(x, s) }

  /** From here the exporter can take these steps and end there. */
  ghost predicate Continues(x: Exporter, steps: seq<Step>, end: Exporter) { Path(Exporting(), x, steps) == Some(end) }

  /** A run of the exporter from an empty topic. */
  ghost function DriverRun(start: World, steps: seq<Step>): Option<Exporter> {
    Path(Exporting(), Exporter(start, Progress(0, false)), steps)
  }

  // ---- The exporter's invariant -------------------------------------------------------------------

  /** The epochs known to be delivered are those below. */
  function Settled(p: Progress): nat { if p.pending && p.transaction > 0 then p.transaction - 1 else p.transaction }

  ghost predicate LedgerMatches(ledger: Ledger, p: Progress) {
    && (p.pending ==> p.transaction > 0)
    && (forall e: nat :: e in ledger.handles <==> e < p.transaction)
    && (forall e: nat :: e in ledger.done <==> e < Settled(p))
  }

  predicate PendingEpoch(p: Progress, epoch: Epoch) { p.pending && epoch + 1 == p.transaction }

  /** Which epoch the sink is working on. */
  predicate PhaseMatches(pc: Pc, p: Progress) {
    match pc
    case Ready(last) =>
      (match last
       case Staged(epoch, _) => epoch == Settled(p)
       case Delivered(epoch) => epoch + 1 == p.transaction
       case _ => true)
    case StageBegin(epoch, _, _, _) => !p.pending && epoch == p.transaction
    case StageSend(epoch, _, _, _) => !p.pending && epoch == p.transaction
    case StageAbort(_) => true
    case ForcedAbort(_) => true
    case CommitOpen(epoch) => PendingEpoch(p, epoch)
    case AbortOpen(_) => false
    case Lookup(epoch, _, _, _) => PendingEpoch(p, epoch)
    case RecoverBegin(epoch, _) => PendingEpoch(p, epoch)
    case RecoverSend(epoch, _) => PendingEpoch(p, epoch)
    case RecoverCommit(epoch, _) => PendingEpoch(p, epoch)
    case Halted => true
  }

  ghost predicate DriverInv(w: World, p: Progress) {
    && Inv(w)
    && InSequence(w.broker)
    && LedgerMatches(w.ledger, p)
    && (w.process.Up? ==> PhaseMatches(w.process.local.pc, p))
  }

  // ---- The exporter is a disciplined driver --------------------------------------------------------

  /** Everything the exporter does is allowed by the discipline under which the sink is exactly-once. */
  lemma DriverStepIsAllowed(w: World, p: Progress, s: Step)
    requires DriverInv(w, p) && Possible(w, s) && DriverStep(w, p, s)
    ensures Allowed(w, s)
  {
  }

  lemma CallKeepsPhase(s: Sink, last: Outcome, p: Progress, ev: Event)
    requires NextCall(s, last, ev).Some? && PhaseMatches(Ready(last), p)
    requires match ev
             case PreCommitPayloadCall(epoch, _, _) => !p.pending && epoch == p.transaction
             case CommitCall(epoch, _, _) => PendingEpoch(p, epoch)
             case RecoverCall(epoch, _) => PendingEpoch(p, epoch)
             case SetClusterCommitted(_) => true
             case _ => false
    ensures PhaseMatches(NextCall(s, last, ev).value.pc, p)
  {
  }

  lemma LookupKeepsPhase(l: Local, p: Progress, ev: Event)
    requires l.pc.Lookup? && NextLookup(l, ev).Some? && PhaseMatches(l.pc, p)
    ensures PhaseMatches(NextLookup(l, ev).value.pc, p)
  {
  }

  lemma AnswerKeepsPhase(s: Sink, pc: Pc, p: Progress, ev: Event)
    requires NextAnswer(s, pc, ev).Some? && PhaseMatches(pc, p)
    ensures PhaseMatches(NextAnswer(s, pc, ev).value.pc, p)
  {
  }

  lemma EventKeepsPhase(w: World, p: Progress, s: Step)
    requires s.Client? && Possible(w, s) && DriverStep(w, p, s) && PhaseMatches(w.process.local.pc, p)
    ensures PhaseMatches(Next(w.process.local, s.event).value.pc, p)
  {
    var l, ev := w.process.local, s.event;
    if l.pc.Ready? {
      CallKeepsPhase(l.sink, l.pc.last, p, ev);
    } else if l.pc.Lookup? {
      LookupKeepsPhase(l, p, ev);
    } else {
      AnswerKeepsPhase(l.sink, l.pc, p, ev);
    }
  }

  /** A transaction is opened only when every earlier epoch has been confirmed. */
  lemma OpensInTurn(w: World, p: Progress)
    requires DriverInv(w, p) && w.process.Up? && (w.process.local.pc.StageBegin? || w.process.local.pc.RecoverBegin?)
    ensures LandedBefore(w.broker, w.process.local.pc.epoch)
  {
    forall e | 0 <= e < w.process.local.pc.epoch ensures HasLanded(w.broker, e) {
      assert e in w.ledger.done;
    }
  }

  lemma OtherEventKeepsBroker(b: Broker, pr: Producer, pc: Pc, s: Step)
    requires s.Client? && !s.event.Begin? && !s.event.CommitTxn? && !s.event.AbortTxn?
    ensures BrokerAfter(b, pr, pc, s) == b
  {
  }

  lemma ClientInSequence(w: World, p: Progress, s: Step)
    requires DriverInv(w, p) && s.Client? && Possible(w, s)
    ensures InSequence(Do(w, s).broker)
  {
    if s.event.CommitTxn? || s.event.AbortTxn? {
      RequestInSequence(w, s);
    } else if s.event.Begin? {
      OpensInTurn(w, p);
      BeginStepInSequence(w, s);
    } else {
      OtherEventKeepsBroker(w.broker, w.producer, w.process.local.pc, s);
    }
  }

  lemma PersistMatches(w: World, p: Progress)
    requires DriverInv(w, p) && Possible(w, Persist) && !p.pending
    ensures DriverInv(Do(w, Persist), AfterStep(p, Persist))
  {
    StepKeepsInv(w, Persist);
  }

  lemma ConfirmMatches(w: World, p: Progress)
    requires DriverInv(w, p) && Possible(w, Confirm) && p.pending
    ensures DriverInv(Do(w, Confirm), AfterStep(p, Confirm))
  {
    StepKeepsInv(w, Confirm);
  }

  lemma ClientMatches(w: World, p: Progress, s: Step)
    requires DriverInv(w, p) && s.Client? && Possible(w, s) && DriverStep(w, p, s)
    ensures DriverInv(Do(w, s), p)
  {
    DriverStepIsAllowed(w, p, s);
    StepKeepsInv(w, s);
    ClientInSequence(w, p, s);
    EventKeepsPhase(w, p, s);
  }

  lemma EnvironmentMatches(w: World, p: Progress, s: Step)
    requires DriverInv(w, p) && Possible(w, s)
        && (s.Flush? || s.Settle? || s.ForeignBegin? || s.ForeignAppend? || s.Crash? || s.Connect?)
    ensures DriverInv(Do(w, s), p)
  {
    StepKeepsInv(w, s);
    match s {
      case Crash =>
      case Connect(landLeftover) => ConnectInSequence(w, landLeftover);
      case _ => BackgroundInSequence(w, s);
    }
  }

  lemma StepKeepsDriverInv(w: World, p: Progress, s: Step)
    requires DriverInv(w, p) && Possible(w, s) && DriverStep(w, p, s)
    ensures DriverInv(Do(w, s), AfterStep(p, s))
  {
    match s {
      case Client(_, _, _, _) => ClientMatches(w, p, s);
      case Persist => PersistMatches(w, p);
      case Confirm => ConfirmMatches(w, p);
      case _ => EnvironmentMatches(w, p, s);
    }
  }

  /** Every run of the exporter is a disciplined run of the sink, and keeps the exporter's invariant. */
  lemma {:induction false} DriverRunIsDisciplined(me: nat, topic: string, partitions: nat, steps: seq<Step>)
    requires partitions > 0 && DriverRun(Initial(me, topic, partitions), steps).Some?
    ensures var start := Initial(me, topic, partitions);
            var r := DriverRun(start, steps).value;
            Reached(r.world, me, topic, partitions, steps) && DriverInv(r.world, r.progress) && r.world.me == me
  {
    var start := Initial(me, topic, partitions);
    if steps != [] {
      var prefix, s := steps[..|steps| - 1], steps[|steps| - 1];
      DriverRunIsDisciplined(me, topic, partitions, prefix);
      var r := DriverRun(start, prefix).value;
      DriverStepIsAllowed(r.world, r.progress, s);
      StepKeepsDriverInv(r.world, r.progress, s);
    }
  }

  // ---- What a consumer sees --------------------------------------------------------------------------

  /** The committed record of an epoch. */
  ghost predicate EnvelopeAt(w: World, epoch: Epoch, i: nat) {
    && Visible(w.broker, w.me, epoch, 0, i)
    && epoch in w.ledger.handles && w.broker.logs[0][i].payload == w.ledger.handles[epoch]
  }

  ghost predicate HasEnvelope(w: World, epoch: Epoch) { exists i :: EnvelopeAt(w, epoch, i) }

  lemma VisibleInOrder(w: World, e: Epoch, i: nat, e': Epoch, i': nat)
    requires Inv(w) && InSequence(w.broker) && Visible(w.broker, w.me, e, 0, i) && Visible(w.broker, w.me, e', 0, i')
        && e < e'
    ensures i < i'
  {
    VisibleIsOwn(w.broker, w.me, e, 0, i);
    VisibleIsOwn(w.broker, w.me, e', 0, i');
    assert PairOrdered(w.broker, w.broker.logs[0][i].txn, w.broker.logs[0][i'].txn);
  }

  lemma VisibleHasLanded(w: World, e: Epoch, q: nat, i: nat)
    requires Inv(w) && InSequence(w.broker) && Visible(w.broker, w.me, e, q, i)
    ensures q == 0 && HasLanded(w.broker, e) && EnvelopeAt(w, e, i)
  {
    VisibleIsOwn(w.broker, w.me, e, q, i);
    var t := w.broker.logs[q][i].txn;
    assert OwnOf(w.broker, t, e) && OwnTxnOk(w.broker, w.producer, w.ledger, w.horizon, t);
  }

  lemma {:induction false} LandedIsDelivered(w: World, p: Progress, e: Epoch)
    requires DriverInv(w, p) && HasLanded(w.broker, e)
    ensures e < p.transaction && HasEnvelope(w, e)
  {
    var t :| OwnOf(w.broker, t, e) && w.broker.txns[t].status.Landed?;
    assert Own(w.broker, t) && OwnTxnOk(w.broker, w.producer, w.ledger, w.horizon, t);
    var i := LandedIsVisible(w, e);
    assert EnvelopeAt(w, e, i);
  }

  /** The landed epochs are an initial segment. */
  lemma CountDelivered(w: World, p: Progress) returns (k: nat)
    requires DriverInv(w, p)
    ensures Settled(p) <= k <= p.transaction && forall e: nat :: HasLanded(w.broker, e) <==> e < k
  {
    k := Settled(p);
    if p.pending && HasLanded(w.broker, p.transaction - 1) {
      k := p.transaction;
    }
    forall e: nat | HasLanded(w.broker, e) ensures e < k {
      LandedIsDelivered(w, p, e);
    }
    forall e: nat | e < Settled(p) ensures HasLanded(w.broker, e) {
      assert e in w.ledger.done;
    }
  }

  /** A read-committed consumer of the topic sees exactly the envelopes of the first k epochs, with the saved
      contents, in epoch order. */
  ghost predicate ShowsFirst(w: World, k: nat) {
    && (forall e: nat :: e < k ==> HasEnvelope(w, e))
    && (forall e: nat, q: nat, i: nat :: Visible(w.broker, w.me, e, q, i) ==> e < k && q == 0 && EnvelopeAt(w, e, i))
    && (forall e: nat, i: nat, e': nat, i': nat :: EnvelopeAt(w, e, i) && EnvelopeAt(w, e', i') && e < e' ==> i < i')
  }

  /** In every run of the exporter, through crashes, lost answers, transaction timeouts and reconnects, the topic
      shows a prefix of the epochs in order, each once: all that are known to be delivered and at most the pending one
      besides. */
  lemma ViewIsDeliveredInOrder(me: nat, topic: string, partitions: nat, steps: seq<Step>) returns (k: nat)
    requires partitions > 0 && DriverRun(Initial(me, topic, partitions), steps).Some?
    ensures var r := DriverRun(Initial(me, topic, partitions), steps).value;
            Settled(r.progress) <= k <= r.progress.transaction && ShowsFirst(r.world, k)
  {
    DriverRunIsDisciplined(me, topic, partitions, steps);
    var r := DriverRun(Initial(me, topic, partitions), steps).value;
    k := CountDelivered(r.world, r.progress);
    InvShowsFirst(r.world, r.progress, k);
  }

  lemma InvShowsFirst(w: World, p: Progress, k: nat)
    requires DriverInv(w, p) && forall e: nat :: HasLanded(w.broker, e) <==> e < k
    ensures ShowsFirst(w, k)
  {
    forall e: nat | e < k ensures HasEnvelope(w, e) {
      assert HasLanded(w.broker, e);
      LandedIsDelivered(w, p, e);
    }
    forall e: nat, q: nat, i: nat | Visible(w.broker, w.me, e, q, i) ensures e < k && q == 0 && EnvelopeAt(w, e, i) {
      VisibleHasLanded(w, e, q, i);
    }
    forall e: nat, i: nat, e': nat, i': nat | EnvelopeAt(w, e, i) && EnvelopeAt(w, e', i') && e < e' ensures i < i' {
      VisibleInOrder(w, e, i, e', i');
    }
  }
}
