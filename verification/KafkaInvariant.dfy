/** The invariant of the two-phase commit, and its preservation by everything the broker does. */
module KafkaInvariant {
  import opened Prelude
  import opened KafkaSinkMachine
  import opened KafkaBroker
  import opened KafkaProtocol

  ghost predicate HasLanded(b: Broker, epoch: Epoch) {
    exists t :: OwnOf(b, t, epoch) && b.txns[t].status.Landed?
  }

  ghost predicate AllDropped(b: Broker, epoch: Epoch) {
    forall t :: OwnOf(b, t, epoch) ==> b.txns[t].status.Dropped?
  }

  ghost predicate NoneLanded(b: Broker, epoch: Epoch) {
    forall t :: OwnOf(b, t, epoch) ==> !b.txns[t].status.Landed?
  }

  /** The producer's current transaction is its own, and a queued record is the one not yet appended. */
  ghost predicate CurrentOk(b: Broker, pr: Producer) {
    && (pr.current.Some? ==> Own(b, pr.current.value))
    && |pr.queue| <= 1
    && (pr.queue != [] ==>
          && pr.current.Some?
          && var txn := b.txns[pr.current.value];
             pr.queue[0] == txn.own.value.payload && txn.at.None?)
  }

  /** An open own transaction is the producer's current one; whatever may land is recorded in the ledger, is in the log,
      is covered by a cluster checkpoint and carries the persisted payload. */
  predicate OwnTxnOk(b: Broker, pr: Producer, ledger: Ledger, horizon: Epoch, t: nat)
    requires Own(b, t)
  {
    var txn, epoch := b.txns[t], b.txns[t].own.value.epoch;
    && (txn.status.Open? ==> Is(pr.current, t))
    && (txn.status.Landed? || (txn.status.Open? && txn.status.requested) ==>
          epoch in ledger.handles && txn.at.Some? && epoch <= horizon)
    && (!txn.status.Dropped? && epoch in ledger.handles ==> txn.own.value.payload == ledger.handles[epoch])
  }

  /** Of two attempts at the same epoch one is dropped for good, and it is never the only one still held. */
  predicate RivalsOk(b: Broker, pr: Producer, t: nat, u: nat)
    requires Own(b, t) && Own(b, u)
  {
    t != u && b.txns[t].own.value.epoch == b.txns[u].own.value.epoch ==>
      && (b.txns[t].status.Dropped? || b.txns[u].status.Dropped?)
      && (Is(pr.current, t) ==> b.txns[u].status.Dropped?)
  }

  ghost predicate Core(b: Broker, pr: Producer, ledger: Ledger, horizon: Epoch, me: nat) {
    && WellFormed(b, me)
    && CurrentOk(b, pr)
    && (forall t {:trigger Own(b, t)} :: Own(b, t) ==> OwnTxnOk(b, pr, ledger, horizon, t))
    && (forall t, u {:trigger Own(b, t), Own(b, u)} :: Own(b, t) && Own(b, u) ==> RivalsOk(b, pr, t, u))
    && ledger.done <= ledger.handles.Keys
    && (forall e :: e in ledger.done ==> HasLanded(b, e))
  }

  ghost predicate SinkOk(w: World, s: Sink) {
    && s.connector == w.me && s.topic.Some? && s.topic.value == w.topic
    && s.clusterCommitted <= w.horizon
    && (forall e :: e in s.delivered ==> HasLanded(w.broker, e))
  }

  /** The producer holds a transaction of this epoch with this payload. */
  predicate Holds(b: Broker, pr: Producer, epoch: Epoch, payload: Payload) {
    && pr.current.Some? && OwnOf(b, pr.current.value, epoch)
    && b.txns[pr.current.value].own.value.payload == payload
  }

  predicate Empty(b: Broker, pr: Producer) {
    Resolvable(b, pr) && pr.queue == [] && b.txns[pr.current.value].at.None?
  }

  /** A recovery works on a persisted handle that a checkpoint covers. */
  predicate Recovering(w: World, s: Sink, epoch: Epoch, payload: Payload) {
    && epoch in w.ledger.handles && w.ledger.handles[epoch] == payload
    && epoch <= s.clusterCommitted
    && ValidPayload(s, epoch, payload)
  }

  ghost predicate Phase(w: World, s: Sink, pc: Pc) {
    var b, pr := w.broker, w.producer;
    match pc
    case Ready(last) =>
      (match last
       case Staged(epoch, state) =>
         && state.PreCommitted? && state.handle.RowHandle? && Holds(b, pr, epoch, state.handle.payload)
         && Loaded(b, pr)
       case Delivered(epoch) =>
         HasLanded(b, epoch) && epoch in w.ledger.handles && epoch in s.delivered && epoch !in s.staged
       case Discarded(epoch) => AllDropped(b, epoch)
       case _ => true)
    case StageBegin(epoch, _, payload, handle) =>
      && epoch !in w.ledger.handles && ValidPayload(s, epoch, payload)
      && handle.RowHandle? && handle.payload == payload
    case StageSend(epoch, _, payload, handle) =>
      Holds(b, pr, epoch, payload) && Empty(b, pr) && handle.RowHandle? && handle.payload == payload
    case StageAbort(_) => true
    case ForcedAbort(_) => true
    case CommitOpen(epoch) =>
      && Loaded(b, pr) && OwnOf(b, pr.current.value, epoch)
      && epoch in w.ledger.handles && epoch <= s.clusterCommitted
    case AbortOpen(epoch) => pr.current.Some? && OwnOf(b, pr.current.value, epoch)
    case Lookup(epoch, expected, resend, _) =>
      expected.Some? && expected.value == resend && Recovering(w, s, epoch, resend)
    case RecoverBegin(epoch, payload) =>
      Recovering(w, s, epoch, payload) && (pr.current.None? ==> NoneLanded(b, epoch))
    case RecoverSend(epoch, payload) =>
      Recovering(w, s, epoch, payload) && Holds(b, pr, epoch, payload) && Empty(b, pr)
    case RecoverCommit(epoch, payload) =>
      Recovering(w, s, epoch, payload) && Holds(b, pr, epoch, payload) && Loaded(b, pr)
    case Halted => true
  }

  /** Every record the producer ever appended lies below the captured high watermark of partition 0, unless the
      producer still holds a transaction. */
  ghost predicate OwnBelow(b: Broker, pr: Producer, high: nat) {
    pr.current.None? ==> forall t {:trigger Own(b, t)} :: Own(b, t) && b.txns[t].at.Some? ==> b.txns[t].at.value < high
  }

  /** What the lookup knows about partition `q` once both watermarks are captured. */
  ghost predicate PartitionScanned(b: Broker, c: Consumer, me: nat, epoch: Epoch, unsettled: map<nat, bool>, q: int)
  {
    && 0 <= q < |c.highs| && q < |c.stables|
    && if q in unsettled then
      unsettled[q] ==> c.highs[q] <= c.stables[q]
    else
      ResolvedBelow(b, q, c.highs[q]) && NoMatchBelow(b, me, epoch, q, c.highs[q])
  }

  ghost predicate AllScanned(b: Broker, c: Consumer, me: nat, epoch: Epoch, unsettled: map<nat, bool>) {
    forall q {:trigger PartitionScanned(b, c, me, epoch, unsettled, q)} :: 0 <= q < |c.stables| ==>
      PartitionScanned(b, c, me, epoch, unsettled, q)
  }

  ghost predicate Captured(scan: Scan, c: Consumer, partitions: nat) {
    match scan
    case Setup => c.highs == [] && c.stables == []
    case Capture(total, unsettled, next, high) =>
      && total == partitions && next < total
      && |c.stables| == next && |c.highs| == next + (if high.Some? then 1 else 0)
      && (high.Some? ==> high.value == c.highs[next])
      && (forall q :: q in unsettled <==> 0 <= q < next)
    case Polling(unsettled) =>
      && |c.highs| == |c.stables| == partitions
      && unsettled != map[]
  }

  function Unsettled(scan: Scan): map<nat, bool> {
    if scan.Setup? then map[] else scan.unsettled
  }

  ghost predicate Scanning(b: Broker, pr: Producer, c: Consumer, me: nat, epoch: Epoch, scan: Scan) {
    && Captured(scan, c, |b.logs|)
    && |c.positions| == |b.logs|
    && |c.stables| <= |c.highs| <= |b.logs|
    && (c.highs != [] ==> OwnBelow(b, pr, c.highs[0]))
    && (forall q {:trigger c.highs[q]} :: 0 <= q < |c.highs| ==> c.highs[q] <= |b.logs[q]|)
    && (forall q {:trigger c.positions[q]} :: 0 <= q < |c.positions| ==>
          ResolvedBelow(b, q, c.positions[q]) && NoMatchBelow(b, me, epoch, q, c.positions[q]))
    && AllScanned(b, c, me, epoch, Unsettled(scan))
  }

  ghost predicate ProcessOk(w: World) {
    w.process.Up? ==>
      && SinkOk(w, w.process.local.sink)
      && Phase(w, w.process.local.sink, w.process.local.pc)
      && (w.process.local.pc.Lookup? ==>
            Scanning(w.broker, w.producer, w.process.consumer, w.me, w.process.local.pc.epoch, w.process.local.pc.scan))
  }

  ghost predicate Inv(w: World) {
    && Core(w.broker, w.producer, w.ledger, w.horizon, w.me)
    && ProcessOk(w)
  }

  // ---- Changes of the broker state ------------------------------------------------------------

  /** Growth that adds no own transaction. */
  ghost predicate Quiet(b: Broker, b': Broker) {
    && Grows(b, b')
    && (forall t {:trigger Own(b', t)} :: Own(b', t) ==> t < |b.txns|)
  }

  lemma SetStatusQuiet(b: Broker, t: nat, status: Status, me: nat)
    requires WellFormed(b, me) && t < |b.txns| && (b.txns[t].status.Open? || b.txns[t].status == status)
    ensures Quiet(b, SetStatus(b, t, status)) && WellFormed(SetStatus(b, t, status), me)
  {
    var b' := SetStatus(b, t, status);
    forall q, i | 0 <= q < |b'.logs| && 0 <= i < |b'.logs[q]| ensures EntryOk(b', me, q, i) {
      assert EntryOk(b, me, q, i);
    }
    forall u | 0 <= u < |b'.txns| ensures TxnOk(b', me, u) {
      assert TxnOk(b, me, u);
    }
  }

  lemma OwnQuiet(b: Broker, b': Broker, t: nat)
    requires Quiet(b, b')
    ensures Own(b', t) <==> Own(b, t)
    ensures Own(b, t) ==>
              b'.txns[t].own == b.txns[t].own && (!b.txns[t].status.Open? ==> b'.txns[t].status == b.txns[t].status)
  {
    if t < |b.txns| { assert TxnGrows(b.txns[t], b'.txns[t]); }
  }

  lemma HasLandedQuiet(b: Broker, b': Broker, epoch: Epoch)
    requires Grows(b, b') && HasLanded(b, epoch)
    ensures HasLanded(b', epoch)
  {
    var t :| OwnOf(b, t, epoch) && b.txns[t].status.Landed?;
    assert TxnGrows(b.txns[t], b'.txns[t]);
    assert OwnOf(b', t, epoch);
  }

  /** Landing, dropping or asking for the current transaction, or settling any other. */
  lemma StatusKeepsCore(b: Broker, pr: Producer, pr': Producer, ledger: Ledger, horizon: Epoch, me: nat, t: nat,
          status: Status)
    requires Core(b, pr, ledger, horizon, me)
    requires t < |b.txns| && (b.txns[t].status.Open? || b.txns[t].status == status)
    requires status.Open? ==> Is(pr.current, t)
    requires Own(b, t) && (status.Landed? || (status.Open? && status.requested)) ==>
               && b.txns[t].at.Some? && b.txns[t].own.value.epoch in ledger.handles
                   && b.txns[t].own.value.epoch <= horizon
    requires pr' == pr || (pr' == Producer(None, []) && (pr.current.Some? ==> pr.current.value == t) && !status.Open?)
    ensures Core(SetStatus(b, t, status), pr', ledger, horizon, me)
  {
    var b' := SetStatus(b, t, status);
    SetStatusQuiet(b, t, status, me);
    forall u | Own(b', u) ensures OwnTxnOk(b', pr', ledger, horizon, u) {
      assert Own(b, u) && OwnTxnOk(b, pr, ledger, horizon, u);
    }
    forall u, v | Own(b', u) && Own(b', v) ensures RivalsOk(b', pr', u, v) {
      assert Own(b, u) && Own(b, v) && RivalsOk(b, pr, u, v) && RivalsOk(b, pr, v, u);
      assert OwnTxnOk(b, pr, ledger, horizon, u) && OwnTxnOk(b, pr, ledger, horizon, v);
    }
    forall e | e in ledger.done ensures HasLanded(b', e) { HasLandedQuiet(b, b', e); }
  }

  lemma FlushKeepsCore(b: Broker, pr: Producer, ledger: Ledger, horizon: Epoch, me: nat)
    requires Core(b, pr, ledger, horizon, me)
    requires pr.queue != [] && b.txns[pr.current.value].status.Open?
    ensures var b' := AppendOwn(b, pr.current.value, pr.queue[0]);
            Quiet(b, b') && Core(b', pr.(queue := pr.queue[1..]), ledger, horizon, me)
  {
    var t := pr.current.value;
    var b', pr' := AppendOwn(b, t, pr.queue[0]), pr.(queue := pr.queue[1..]);
    forall q, i | 0 <= q < |b'.logs| && 0 <= i < |b'.logs[q]| ensures EntryOk(b', me, q, i) {
      if i < |b.logs[q]| { assert EntryOk(b, me, q, i); }
    }
    forall u | 0 <= u < |b'.txns| ensures TxnOk(b', me, u) {
      assert TxnOk(b, me, u);
    }
    forall u | Own(b', u) ensures OwnTxnOk(b', pr', ledger, horizon, u) {
      assert Own(b, u) && OwnTxnOk(b, pr, ledger, horizon, u);
    }
    forall u, v | Own(b', u) && Own(b', v) ensures RivalsOk(b', pr', u, v) {
      assert Own(b, u) && Own(b, v) && RivalsOk(b, pr, u, v);
    }
    forall e | e in ledger.done ensures HasLanded(b', e) { HasLandedQuiet(b, b', e); }
  }

  lemma ForeignBeginKeepsCore(b: Broker, pr: Producer, ledger: Ledger, horizon: Epoch, me: nat)
    requires Core(b, pr, ledger, horizon, me)
    ensures Quiet(b, BeginForeign(b)) && Core(BeginForeign(b), pr, ledger, horizon, me)
  {
    var b' := BeginForeign(b);
    forall q, i | 0 <= q < |b'.logs| && 0 <= i < |b'.logs[q]| ensures EntryOk(b', me, q, i) {
      assert EntryOk(b, me, q, i);
    }
    forall u | 0 <= u < |b'.txns| ensures TxnOk(b', me, u) {
      if u < |b.txns| { assert TxnOk(b, me, u); }
    }
    forall u | Own(b', u) ensures OwnTxnOk(b', pr, ledger, horizon, u) {
      assert Own(b, u) && OwnTxnOk(b, pr, ledger, horizon, u);
    }
    forall u, v | Own(b', u) && Own(b', v) ensures RivalsOk(b', pr, u, v) {
      assert Own(b, u) && Own(b, v) && RivalsOk(b, pr, u, v);
    }
    forall e | e in ledger.done ensures HasLanded(b', e) { HasLandedQuiet(b, b', e); }
  }

  lemma ForeignAppendKeepsCore(b: Broker, pr: Producer, ledger: Ledger, horizon: Epoch, me: nat, t: nat, p: nat,
          payload: Payload)
    requires Core(b, pr, ledger, horizon, me)
    requires t < |b.txns| && b.txns[t].own.None? && p < |b.logs| && !Is(payload.connector, me)
    ensures Quiet(b, AppendForeign(b, t, p, payload)) && Core(AppendForeign(b, t, p, payload), pr, ledger, horizon, me)
  {
    var b' := AppendForeign(b, t, p, payload);
    forall q, i | 0 <= q < |b'.logs| && 0 <= i < |b'.logs[q]| ensures EntryOk(b', me, q, i) {
      if i < |b.logs[q]| { assert EntryOk(b, me, q, i); }
    }
    forall u | 0 <= u < |b'.txns| ensures TxnOk(b', me, u) {
      assert TxnOk(b, me, u);
    }
    forall u | Own(b', u) ensures OwnTxnOk(b', pr, ledger, horizon, u) {
      assert Own(b, u) && OwnTxnOk(b, pr, ledger, horizon, u);
    }
    forall u, v | Own(b', u) && Own(b', v) ensures RivalsOk(b', pr, u, v) {
      assert Own(b, u) && Own(b, v) && RivalsOk(b, pr, u, v);
    }
    forall e | e in ledger.done ensures HasLanded(b', e) { HasLandedQuiet(b, b', e); }
  }

  /** A new attempt is only ever opened when every earlier attempt at the epoch is dropped. */
  lemma BeginKeepsCore(b: Broker, pr: Producer, ledger: Ledger, horizon: Epoch, me: nat, epoch: Epoch, payload: Payload)
    requires Core(b, pr, ledger, horizon, me) && pr.current.None?
    requires NoneLanded(b, epoch)
    requires Is(payload.connector, me) && Is(payload.epoch, epoch)
    requires epoch in ledger.handles ==> ledger.handles[epoch] == payload
    ensures Grows(b, BeginOwn(b, epoch, payload))
    ensures Core(BeginOwn(b, epoch, payload), Producer(Some(|b.txns|), []), ledger, horizon, me)
  {
    var b', pr' := BeginOwn(b, epoch, payload), Producer(Some(|b.txns|), []);
    forall q, i | 0 <= q < |b'.logs| && 0 <= i < |b'.logs[q]| ensures EntryOk(b', me, q, i) {
      assert EntryOk(b, me, q, i);
    }
    forall u | 0 <= u < |b'.txns| ensures TxnOk(b', me, u) {
      if u < |b.txns| { assert TxnOk(b, me, u); }
    }
    forall u | Own(b', u) ensures OwnTxnOk(b', pr', ledger, horizon, u) {
      if u < |b.txns| { assert Own(b, u) && OwnTxnOk(b, pr, ledger, horizon, u); }
    }
    forall u, v | Own(b', u) && Own(b', v) ensures RivalsOk(b', pr', u, v) {
      if u < |b.txns| { assert Own(b, u) && OwnTxnOk(b, pr, ledger, horizon, u); }
      if v < |b.txns| { assert Own(b, v) && OwnTxnOk(b, pr, ledger, horizon, v); }
      if u < |b.txns| && v < |b.txns| { assert RivalsOk(b, pr, u, v); }
      if u < |b.txns| && OwnOf(b, u, epoch) { assert !b.txns[u].status.Landed?; }
      if v < |b.txns| && OwnOf(b, v, epoch) { assert !b.txns[v].status.Landed?; }
    }
    forall e | e in ledger.done ensures HasLanded(b', e) { HasLandedQuiet(b, b', e); }
  }

  /** A lookup in progress is not disturbed by anything the broker does meanwhile. */
  lemma ScanSurvives(b: Broker, b': Broker, pr: Producer, pr': Producer, c: Consumer, me: nat, epoch: Epoch, scan: Scan)
    requires WellFormed(b, me) && Quiet(b, b') && Scanning(b, pr, c, me, epoch, scan)
    requires pr'.current == pr.current
    requires pr.current.None? ==> forall t {:trigger Own(b, t)} :: Own(b, t) ==> b'.txns[t].at == b.txns[t].at
    ensures Scanning(b', pr', c, me, epoch, scan)
  {
    forall q | 0 <= q < |c.highs| ensures c.highs[q] <= |b'.logs[q]| {
      assert b.logs[q] <= b'.logs[q];
    }
    forall q | 0 <= q < |c.positions|
      ensures ResolvedBelow(b', q, c.positions[q]) && NoMatchBelow(b', me, epoch, q, c.positions[q])
    {
      ResolvedGrows(b, b', me, q, c.positions[q]);
      NoMatchGrows(b, b', me, epoch, q, c.positions[q]);
    }
    forall q | 0 <= q < |c.stables| ensures PartitionScanned(b', c, me, epoch, Unsettled(scan), q) {
      assert PartitionScanned(b, c, me, epoch, Unsettled(scan), q);
      if q !in Unsettled(scan) {
        ResolvedGrows(b, b', me, q, c.highs[q]);
        NoMatchGrows(b, b', me, epoch, q, c.highs[q]);
      }
    }
    if c.highs != [] && pr'.current.None? {
      forall t | Own(b', t) && b'.txns[t].at.Some? ensures b'.txns[t].at.value < c.highs[0] {
        OwnQuiet(b, b', t);
      }
    }
  }
}
