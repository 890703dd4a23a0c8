/** Building runs step by step: what each healthy step does to the world. */
module KafkaRuns {
  import opened Prelude
  import opened KafkaSinkMachine
  import opened KafkaBroker
  import opened KafkaProtocol

  lemma RunMore(w: World, steps: seq<Step>, mid: World, s: Step)
    requires Run(w, steps) == Some(mid) && Possible(mid, s)
    ensures Run(w, steps + [s]) == Some(Do(mid, s))
  {
    assert (steps + [s])[..|steps|] == steps;
  }

  /** A step of the sink that does nothing beyond its event. */
  function Quietly(event: Event): Step { Client(event, Untouched, false, 0) }

  /** The world with the sink at another point. */
  function AtPc(w: World, s: Sink, pc: Pc): World
    requires w.process.Up?
  {
    w.(process := Up(Local(s, pc), w.process.consumer))
  }

  predicate SinkAt(w: World, s: Sink, pc: Pc) { w.process.Up? && w.process.local == Local(s, pc) }

  // ---- Staging ---------------------------------------------------------------------------------------

  lemma StageStep(w: World, s: Sink, last: Outcome, t: Epoch, payload: Payload)
    requires SinkAt(w, s, Ready(last)) && s.topic.Some? && ValidPayload(s, t, payload)
    requires !BackpressureActive(s) && t !in s.staged
    ensures var call := Quietly(PreCommitPayloadCall(t, 0, payload));
            && Possible(w, call)
            && Do(w, call) == AtPc(w, s, StageBegin(t, 0, payload, RowHandle(s.connector, s.topic.value, t, payload)))
  {
  }

  lemma BeginStep(w: World, s: Sink, t: Epoch, rows: nat, payload: Payload, handle: Handle)
    requires SinkAt(w, s, StageBegin(t, rows, payload, handle)) && w.producer == Producer(None, [])
    ensures Possible(w, Quietly(Begin(true)))
    ensures Do(w, Quietly(Begin(true))) ==
              AtPc(w, s, StageSend(t, rows, payload, handle))
                .(broker := BeginOwn(w.broker, t, payload), producer := Producer(Some(|w.broker.txns|), []))
  {
  }

  lemma SendStep(w: World, s: Sink, t: Epoch, rows: nat, payload: Payload, handle: Handle)
    requires SinkAt(w, s, StageSend(t, rows, payload, handle)) && w.producer.queue == []
    ensures Possible(w, Quietly(Send(true)))
    ensures Do(w, Quietly(Send(true))) ==
              AtPc(w, AfterStage(s, t), Ready(Staged(t, PreCommitted(rows, handle))))
                .(producer := w.producer.(queue := [payload]))
  {
    assert [] + [payload] == [payload];
  }

  lemma PersistStep(w: World, s: Sink, t: Epoch, rows: nat, handle: Handle)
    requires SinkAt(w, s, Ready(Staged(t, PreCommitted(rows, handle)))) && handle.RowHandle? && t !in w.ledger.handles
    ensures Possible(w, Persist)
    ensures Do(w, Persist) == w.(ledger := w.ledger.(handles := w.ledger.handles[t := handle.payload]))
  {
  }

  lemma StageAbortStep(w: World, s: Sink, t: Epoch)
    requires SinkAt(w, s, StageAbort(t)) && Resolvable(w.broker, w.producer)
    requires !w.broker.txns[w.producer.current.value].status.Landed?
    ensures Possible(w, Quietly(AbortTxn(true)))
    ensures Do(w, Quietly(AbortTxn(true))) ==
              AtPc(w, s, Ready(Failed(PreCommitFailed)))
                .(broker := SetStatus(w.broker, w.producer.current.value, Dropped), producer := Producer(None, []))
  {
  }

  // ---- Committing ------------------------------------------------------------------------------------

  lemma CheckpointStep(w: World, s: Sink, last: Outcome, t: Epoch)
    requires SinkAt(w, s, Ready(last))
    ensures Possible(w, Quietly(SetClusterCommitted(t)))
    ensures Do(w, Quietly(SetClusterCommitted(t))) ==
              AtPc(w, s.(clusterCommitted := t), Ready(last)).(horizon := Max(w.horizon, t))
  {
  }

  lemma CommitCallStep(w: World, s: Sink, last: Outcome, t: Epoch, state: SinkState)
    requires SinkAt(w, s, Ready(last)) && state.PreCommitted? && s.topic.Some?
    requires t <= s.clusterCommitted && t !in s.delivered
    ensures Possible(w, Quietly(CommitCall(t, state, false)))
    ensures Do(w, Quietly(CommitCall(t, state, false))) == AtPc(w, s, CommitOpen(t))
  {
  }

  lemma FlushStep(w: World, payload: Payload)
    requires w.producer.queue == [payload] && Resolvable(w.broker, w.producer) && |w.broker.logs| > 0
    requires var txn := w.broker.txns[w.producer.current.value]; txn.status.Open? && txn.at.None?
    ensures Possible(w, Flush)
    ensures Do(w, Flush) ==
              w.(broker := AppendOwn(w.broker, w.producer.current.value, payload), producer := w.producer.(queue := []))
  {
    assert w.producer.queue[1..] == [];
  }

  lemma CommitAnswerStep(w: World, s: Sink, t: Epoch)
    requires SinkAt(w, s, CommitOpen(t)) && w.producer.queue == []
    requires Resolvable(w.broker, w.producer) && w.broker.txns[w.producer.current.value].status.Open?
    ensures Possible(w, Quietly(CommitTxn(true)))
    ensures Do(w, Quietly(CommitTxn(true))) ==
              AtPc(w, AfterCommit(s, t), Ready(Delivered(t)))
                .(broker := SetStatus(w.broker, w.producer.current.value, Landed), producer := Producer(None, []))
  {
  }

  lemma ConfirmStep(w: World, s: Sink, t: Epoch)
    requires SinkAt(w, s, Ready(Delivered(t))) && t in w.ledger.handles
    ensures Possible(w, Confirm) && Do(w, Confirm) == w.(ledger := w.ledger.(done := w.ledger.done + {t}))
  {
  }

  // ---- Recovering ------------------------------------------------------------------------------------

  lemma RecoverBeginStep(w: World, s: Sink, t: Epoch, payload: Payload)
    requires SinkAt(w, s, RecoverBegin(t, payload)) && w.producer == Producer(None, [])
    ensures Possible(w, Quietly(Begin(true)))
    ensures Do(w, Quietly(Begin(true))) ==
              AtPc(w, s, RecoverSend(t, payload))
                .(broker := BeginOwn(w.broker, t, payload), producer := Producer(Some(|w.broker.txns|), []))
  {
  }

  lemma RecoverSendStep(w: World, s: Sink, t: Epoch, payload: Payload, ok: bool)
    requires SinkAt(w, s, RecoverSend(t, payload)) && w.producer.queue == []
    ensures Possible(w, Quietly(Send(ok)))
    ensures Do(w, Quietly(Send(ok))) ==
              if ok then AtPc(w, s, RecoverCommit(t, payload)).(producer := w.producer.(queue := [payload]))
              else AtPc(w, s, Ready(Failed(CommitFailed)))
  {
    assert [] + [payload] == [payload];
  }

  lemma RecoverCommitStep(w: World, s: Sink, t: Epoch, payload: Payload)
    requires SinkAt(w, s, RecoverCommit(t, payload)) && w.producer.queue == []
    requires Resolvable(w.broker, w.producer) && w.broker.txns[w.producer.current.value].status.Open?
    ensures Possible(w, Quietly(CommitTxn(true)))
    ensures Do(w, Quietly(CommitTxn(true))) ==
              AtPc(w, AfterRecover(s, t), Ready(Delivered(t)))
                .(broker := SetStatus(w.broker, w.producer.current.value, Landed), producer := Producer(None, []))
  {
  }

  // ---- Looking up ------------------------------------------------------------------------------------

  /** A lookup of a persisted payload: what the machine and the consumer are at. */
  datatype Look = Look(sink: Sink, epoch: Epoch, payload: Payload, scan: Scan, consumer: Consumer)

  function Looking(w: World, k: Look): World {
    w.(process := Up(Local(k.sink, Lookup(k.epoch, Some(k.payload), k.payload, k.scan)), k.consumer))
  }

  lemma RecoverCallStep(w: World, s: Sink, last: Outcome, t: Epoch, payload: Payload)
    requires SinkAt(w, s, Ready(last)) && s.topic.Some? && t <= s.clusterCommitted && ValidPayload(s, t, payload)
    ensures var call := Quietly(RecoverCall(t, RowHandle(s.connector, s.topic.value, t, payload)));
            && Possible(w, call)
            && Do(w, call) == Looking(w, Look(s, t, payload, Setup, Consumer([], [], seq(|w.broker.logs|, _ => 0))))
  {
  }

  lemma MetadataStep(w: World, k: Look)
    requires k.scan.Setup? && |w.broker.logs| > 0
    ensures var n := |w.broker.logs|;
            && Possible(Looking(w, k), Quietly(Metadata(n)))
            && Do(Looking(w, k), Quietly(Metadata(n))) == Looking(w, k.(scan := Capture(n, map[], 0, None)))
  {
  }

  lemma HighStep(w: World, k: Look, h: nat)
    requires k.scan.Capture? && k.scan.high.None?
    requires |k.consumer.highs| < |w.broker.logs| && h == |w.broker.logs[|k.consumer.highs|]|
    ensures Possible(Looking(w, k), Quietly(High(h)))
    ensures Do(Looking(w, k), Quietly(High(h))) ==
              Looking(w, k.(scan := k.scan.(high := Some(h)), consumer := k.consumer.(highs := k.consumer.highs + [h])))
  {
  }

  /** Where the capture goes after a stable offset. */
  function AfterStable(scan: Scan, stable: nat): Scan
    requires scan.Capture? && scan.high.Some?
  {
    var settled := scan.unsettled[scan.next := stable >= scan.high.value];
    if scan.next + 1 == scan.total then Polling(settled) else Capture(scan.total, settled, scan.next + 1, None)
  }

  lemma StableStep(w: World, k: Look, n: nat)
    requires k.scan.Capture? && k.scan.high.Some? && ResolvedBelow(w.broker, |k.consumer.stables|, n)
    ensures Possible(Looking(w, k), Quietly(Stable(n)))
    ensures Do(Looking(w, k), Quietly(Stable(n))) ==
              Looking(w, k.(scan := AfterStable(k.scan, n),
                  consumer := k.consumer.(stables := k.consumer.stables + [n])))
  {
  }

  /** The next committed record of a partition can be read. */
  predicate Readable(b: Broker, c: Consumer, q: nat, i: nat) {
    q < |b.logs| && q < |c.positions| && c.positions[q] <= i && InRange(b, q, i) && StatusAt(b, q, i).Landed?
  }

  lemma MessagePossible(w: World, k: Look, q: nat, i: nat)
    requires k.scan.Polling? && Readable(w.broker, k.consumer, q, i)
    requires ResolvedBelow(w.broker, q, i + 1) && NothingLanded(w.broker, q, k.consumer.positions[q], i)
    ensures Possible(Looking(w, k), Quietly(Poll(Message(q, i, w.broker.logs[q][i].payload))))
  {
  }

  lemma PassStep(w: World, k: Look, q: nat, i: nat)
    requires k.scan.Polling? && Readable(w.broker, k.consumer, q, i)
    requires ResolvedBelow(w.broker, q, i + 1) && NothingLanded(w.broker, q, k.consumer.positions[q], i)
    requires !Matches(k.sink.connector, k.epoch, w.broker.logs[q][i].payload)
    ensures var s := Quietly(Poll(Message(q, i, w.broker.logs[q][i].payload)));
            && Possible(Looking(w, k), s)
            && Do(Looking(w, k), s) ==
                 Looking(w, k.(consumer := k.consumer.(positions := k.consumer.positions[q := i + 1])))
  {
    MessagePossible(w, k, q, i);
  }

  lemma FoundStep(w: World, k: Look, q: nat, i: nat)
    requires k.scan.Polling? && Readable(w.broker, k.consumer, q, i)
    requires ResolvedBelow(w.broker, q, i + 1) && NothingLanded(w.broker, q, k.consumer.positions[q], i)
    requires w.broker.logs[q][i].payload == k.payload && Matches(k.sink.connector, k.epoch, k.payload)
    ensures var s, w0 := Quietly(Poll(Message(q, i, k.payload))), Looking(w, k);
            && Possible(w0, s) && Do(w0, s).process.Up?
            && Do(w0, s).process.local == Local(AfterRecover(k.sink, k.epoch), Ready(Delivered(k.epoch)))
            && Do(w0, s) == w0.(process := Do(w0, s).process)
  {
    MessagePossible(w, k, q, i);
  }

  function EofAt(q: nat, end: nat): Step { Client(Poll(Eof(q)), Untouched, false, end) }

  lemma EofStep(w: World, k: Look, q: nat, end: nat)
    requires k.scan.Polling? && q < |w.broker.logs| && q < |k.consumer.positions| && q < |k.consumer.stables|
    requires k.consumer.positions[q] <= end && k.consumer.stables[q] <= end
    requires ResolvedBelow(w.broker, q, end) && NothingLanded(w.broker, q, k.consumer.positions[q], end)
    requires q in k.scan.unsettled && k.scan.unsettled[q]
    ensures var w0, left := Looking(w, k), k.scan.unsettled - {q};
            var c := k.consumer.(positions := k.consumer.positions[q := end]);
            && Possible(w0, EofAt(q, end))
            && Do(w0, EofAt(q, end)) ==
                 if left == map[] then w0.(process := Up(Local(k.sink, RecoverBegin(k.epoch, k.payload)), c))
                 else Looking(w, k.(scan := Polling(left), consumer := c))
  {
  }
}
