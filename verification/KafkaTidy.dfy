/** What else every run of the exporter keeps: valid saved envelopes, and never more than one epoch staged. */
module KafkaTidy {
  import opened Prelude
  import opened Paths
  import opened KafkaSinkMachine
  import opened KafkaBroker
  import opened KafkaProtocol
  import opened KafkaInvariant
  import opened KafkaViewDriver

  /** Every saved payload names this connector and its epoch. */
  ghost predicate HandlesValid(handles: map<Epoch, Payload>, me: nat) {
    forall e :: e in handles ==> Is(handles[e].connector, me) && Is(handles[e].epoch, e)
  }

  /** Only the epoch that is not settled can be staged, and the counter is no larger than the set. */
  predicate StagedOk(s: Sink, p: Progress) {
    && s.maxStaged == MAX_STAGED_EPOCHS
    && (forall e :: e in s.staged ==> e == Settled(p))
    && s.count <= if Settled(p) in s.staged then 1 else 0
  }

  predicate CallOk(s: Sink, pc: Pc, p: Progress) {
    match pc
    case StageBegin(epoch, _, _, _) => epoch !in s.staged
    case StageSend(epoch, _, _, _) => epoch !in s.staged
    case StageAbort(epoch) => !p.pending && epoch == p.transaction && epoch !in s.staged
    case ForcedAbort(_) => p.pending
    case Halted => p.pending
    case _ => true
  }

  /** After a failed send the producer still holds the transaction that is to be aborted. */
  ghost predicate AbortHeld(w: World) {
    w.process.Up? && w.process.local.pc.StageAbort? ==>
      w.producer.current.Some? && OwnOf(w.broker, w.producer.current.value, w.process.local.pc.epoch)
  }

  /** While a transaction is being filled, or its commit or abort asked for the first time, nothing has landed it. */
  predicate Unasked(w: World) {
    w.process.Up? && Filling(w.process.local.pc) ==>
      && w.producer.current.Some? && Own(w.broker, w.producer.current.value)
      && var status := w.broker.txns[w.producer.current.value].status;
         status.Dropped? || (status.Open? && !status.requested)
  }

  predicate Filling(pc: Pc) {
    pc.StageSend? || (pc.Ready? && pc.last.Staged?) || pc.CommitOpen? || pc.ForcedAbort?
    || pc.RecoverSend? || pc.RecoverCommit?
  }

  /** A lookup waits only for partitions of the topic, and its stable offsets lie within them. */
  predicate KnownPartitions(w: World) {
    w.process.Up? && w.process.local.pc.Lookup? ==>
      && StablesInside(w.broker, w.process.consumer)
      && (w.process.local.pc.scan.Polling? ==>
            forall q :: q in w.process.local.pc.scan.unsettled ==> q < |w.broker.logs|)
  }

  predicate StablesInside(b: Broker, c: Consumer) {
    && |c.stables| <= |b.logs|
    && forall q {:trigger c.stables[q]} :: 0 <= q < |c.stables| ==> c.stables[q] <= |b.logs[q]|
  }

  ghost predicate Tidy(w: World, p: Progress) {
    && HandlesValid(w.ledger.handles, w.me)
    && AbortHeld(w) && Unasked(w) && KnownPartitions(w)
    && (w.process.Up? ==> StagedOk(w.process.local.sink, p) && CallOk(w.process.local.sink, w.process.local.pc, p))
  }

  ghost predicate Sound(x: Exporter) { DriverInv(x.world, x.progress) && Tidy(x.world, x.progress) }

  // ---- The sink's own part ----------------------------------------------------------------------------

  lemma CallKeepsStaged(s: Sink, last: Outcome, p: Progress, ev: Event)
    requires StagedOk(s, p) && s.topic.Some? && NextCall(s, last, ev).Some?
    requires match ev
             case PreCommitPayloadCall(epoch, _, _) => !p.pending && epoch == p.transaction
             case CommitCall(epoch, _, _) => PendingEpoch(p, epoch)
             case RecoverCall(epoch, handle) => PendingEpoch(p, epoch) && handle.RowHandle?
             case SetClusterCommitted(_) => true
             case _ => false
    ensures var l := NextCall(s, last, ev).value; StagedOk(l.sink, p) && CallOk(l.sink, l.pc, p) && !l.pc.StageAbort?
  {
  }

  lemma LookupKeepsStaged(l: Local, p: Progress, ev: Event)
    requires l.pc.Lookup? && PhaseMatches(l.pc, p) && StagedOk(l.sink, p) && NextLookup(l, ev).Some?
    ensures var l' := NextLookup(l, ev).value; StagedOk(l'.sink, p) && CallOk(l'.sink, l'.pc, p) && !l'.pc.StageAbort?
  {
  }

  lemma AnswerKeepsStaged(s: Sink, pc: Pc, p: Progress, ev: Event)
    requires PhaseMatches(pc, p) && StagedOk(s, p) && CallOk(s, pc, p) && NextAnswer(s, pc, ev).Some?
    ensures var l := NextAnswer(s, pc, ev).value; StagedOk(l.sink, p) && CallOk(l.sink, l.pc, p)
    ensures NextAnswer(s, pc, ev).value.pc.StageAbort? ==>
              pc.StageSend? && ev.Send? && !ev.ok && pc.epoch == NextAnswer(s, pc, ev).value.pc.epoch
  {
  }

  lemma EventKeepsStaged(w: World, p: Progress, s: Step)
    requires DriverInv(w, p) && Tidy(w, p) && s.Client? && Possible(w, s) && DriverStep(w, p, s)
    ensures var l := Next(w.process.local, s.event).value; StagedOk(l.sink, p) && CallOk(l.sink, l.pc, p)
    ensures Next(w.process.local, s.event).value.pc.StageAbort? ==>
              var pc := w.process.local.pc;
              pc.StageSend? && s.event.Send? && !s.event.ok && pc.epoch == Next(w.process.local, s.event).value.pc.epoch
  {
    var l, ev := w.process.local, s.event;
    if l.pc.Ready? {
      CallKeepsStaged(l.sink, l.pc.last, p, ev);
    } else if l.pc.Lookup? {
      LookupKeepsStaged(l, p, ev);
    } else {
      AnswerKeepsStaged(l.sink, l.pc, p, ev);
    }
  }

  // ---- Steps -----------------------------------------------------------------------------------------

  /** How a call comes to fill or commit a transaction. */
  lemma WhoFills(l: Local, p: Progress, ev: Event)
    requires Next(l, ev).Some? && Filling(Next(l, ev).value.pc) && l.sink.topic.Some? && !ev.PreCommitCall?
    requires ev.CommitCall? ==> l.pc.Ready? && l.pc.last.Staged?
    ensures Filling(l.pc) || ((l.pc.StageBegin? || l.pc.RecoverBegin?) && ev.Begin? && ev.ok)
    ensures !ev.CommitTxn? && !ev.AbortTxn?
  {
  }

  lemma ClientKeepsUnasked(w: World, p: Progress, s: Step)
    requires DriverInv(w, p) && Tidy(w, p) && s.Client? && Possible(w, s) && DriverStep(w, p, s)
    ensures Unasked(Do(w, s))
  {
    if Filling(Next(w.process.local, s.event).value.pc) {
      WhoFills(w.process.local, p, s.event);
    }
  }

  lemma ClientKeepsPartitions(w: World, s: Step)
    requires KnownPartitions(w) && s.Client? && Possible(w, s)
    requires w.process.local.pc.Lookup? ==>
               Captured(w.process.local.pc.scan, w.process.consumer, |w.broker.logs|)
    ensures KnownPartitions(Do(w, s))
  {
    assert |Do(w, s).broker.logs| == |w.broker.logs|;
  }

  lemma ClientKeepsTidy(w: World, p: Progress, s: Step)
    requires DriverInv(w, p) && Tidy(w, p) && s.Client? && Possible(w, s) && DriverStep(w, p, s)
    ensures Tidy(Do(w, s), p)
  {
    EventKeepsStaged(w, p, s);
    ClientKeepsUnasked(w, p, s);
    ClientKeepsPartitions(w, s);
  }

  lemma PersistKeepsTidy(w: World, p: Progress)
    requires DriverInv(w, p) && Tidy(w, p) && Possible(w, Persist) && !p.pending
    ensures Tidy(Do(w, Persist), AfterStep(p, Persist))
  {
    var t := w.producer.current.value;
    assert TxnOk(w.broker, w.me, t);
  }

  lemma ConfirmKeepsTidy(w: World, p: Progress)
    requires DriverInv(w, p) && Tidy(w, p) && Possible(w, Confirm) && p.pending
    ensures Tidy(Do(w, Confirm), AfterStep(p, Confirm))
  {
  }

  lemma EnvironmentKeepsTidy(w: World, p: Progress, s: Step)
    requires DriverInv(w, p) && Tidy(w, p) && Possible(w, s)
    requires s.Flush? || s.Settle? || s.ForeignBegin? || s.ForeignAppend? || s.Crash? || s.Connect?
    ensures Tidy(Do(w, s), p)
  {
    if s.Settle? && Own(w.broker, s.txn) { assert OwnTxnOk(w.broker, w.producer, w.ledger, w.horizon, s.txn); }
  }

  lemma StepKeepsSound(x: Exporter, s: Step)
    requires Sound(x) && Advance(x, s).Some?
    ensures Sound(Advance(x, s).value)
  {
    StepKeepsDriverInv(x.world, x.progress, s);
    match s {
      case Client(_, _, _, _) => ClientKeepsTidy(x.world, x.progress, s);
      case Persist => PersistKeepsTidy(x.world, x.progress);
      case Confirm => ConfirmKeepsTidy(x.world, x.progress);
      case _ => EnvironmentKeepsTidy(x.world, x.progress, s);
    }
  }

  lemma {:induction false} PathKeepsSound(x: Exporter, steps: seq<Step>, end: Exporter)
    requires Sound(x) && Continues(x, steps, end)
    ensures Sound(end)
    decreases |steps|
  {
    if steps != [] {
      var front := steps[..|steps| - 1];
      var before := Path(Exporting(), x, front).value;
      PathKeepsSound(x, front, before);
      StepKeepsSound(before, steps[|steps| - 1]);
    }
  }

  function Start(me: nat, topic: string, partitions: nat): Exporter {
    Exporter(Initial(me, topic, partitions), Progress(0, false))
  }

  lemma StartIsSound(me: nat, topic: string, partitions: nat)
    requires partitions > 0
    ensures Sound(Start(me, topic, partitions))
  {
    DriverRunIsDisciplined(me, topic, partitions, []);
  }

  /** Every state a run of the exporter reaches is sound. */
  lemma DriverRunIsSound(me: nat, topic: string, partitions: nat, run: seq<Step>)
    requires partitions > 0 && DriverRun(Initial(me, topic, partitions), run).Some?
    ensures Sound(DriverRun(Initial(me, topic, partitions), run).value)
  {
    StartIsSound(me, topic, partitions);
    PathKeepsSound(Start(me, topic, partitions), run, DriverRun(Initial(me, topic, partitions), run).value);
  }
}
