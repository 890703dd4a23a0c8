/** What a successful commit has committed, in every run whether or not the driver is disciplined. */
module KafkaHandover {
  import opened Prelude
  import opened KafkaSinkMachine
  import opened KafkaBroker
  import opened KafkaProtocol
  import opened KafkaRuns

  /** Since the last transaction began, or the last reconnect, a `send` was answered with success. */
  predicate Handed(steps: seq<Step>) {
    steps != [] &&
    var s := steps[|steps| - 1];
    if s.Connect? || (s.Client? && s.event.Begin? && s.event.ok) then false
    else if s.Client? && s.event.Send? && s.event.ok then true
    else Handed(steps[..|steps| - 1])
  }

  /** The records and the transactions say the same about where the sink's own records stand. */
  ghost predicate LogOk(b: Broker) {
    && |b.logs| > 0
    && (forall q, i {:trigger b.logs[q][i]} :: 0 <= q < |b.logs| && 0 <= i < |b.logs[q]| ==> RecordOk(b, q, i))
    && (forall t {:trigger b.txns[t]} :: 0 <= t < |b.txns| ==> OffsetOk(b, t))
  }

  /** The held transaction has its record, in the queue or in the log, exactly when a send succeeded since it began. */
  ghost predicate HeldOk(w: World, steps: seq<Step>) {
    && LogOk(w.broker)
    && (w.producer.current.Some? ==>
          Own(w.broker, w.producer.current.value) && (Loaded(w.broker, w.producer) <==> Handed(steps)))
  }

  lemma StatusKeepsLog(b: Broker, t: nat, status: Status)
    requires LogOk(b) && t < |b.txns|
    ensures LogOk(SetStatus(b, t, status))
  {
    var b' := SetStatus(b, t, status);
    forall q, i | 0 <= q < |b'.logs| && 0 <= i < |b'.logs[q]| ensures RecordOk(b', q, i) { assert RecordOk(b, q, i); }
    forall u | 0 <= u < |b'.txns| ensures OffsetOk(b', u) { assert OffsetOk(b, u); }
  }

  lemma BeginKeepsLog(b: Broker, own: Option<Label>)
    requires LogOk(b)
    ensures LogOk(b.(txns := b.txns + [Txn(own, Open(false), None)]))
  {
    var b' := b.(txns := b.txns + [Txn(own, Open(false), None)]);
    forall q, i | 0 <= q < |b'.logs| && 0 <= i < |b'.logs[q]| ensures RecordOk(b', q, i) { assert RecordOk(b, q, i); }
    forall u | 0 <= u < |b'.txns| ensures OffsetOk(b', u) { if u < |b.txns| { assert OffsetOk(b, u); } }
  }

  lemma AppendOwnKeepsLog(b: Broker, t: nat, payload: Payload)
    requires LogOk(b) && Own(b, t) && b.txns[t].at.None?
    ensures LogOk(AppendOwn(b, t, payload))
  {
    var b' := AppendOwn(b, t, payload);
    forall q, i | 0 <= q < |b'.logs| && 0 <= i < |b'.logs[q]| ensures RecordOk(b', q, i) {
      if i < |b.logs[q]| { assert RecordOk(b, q, i); }
    }
    forall u | 0 <= u < |b'.txns| ensures OffsetOk(b', u) { assert OffsetOk(b, u); }
  }

  lemma AppendForeignKeepsLog(b: Broker, t: nat, p: nat, payload: Payload)
    requires LogOk(b) && t < |b.txns| && b.txns[t].own.None? && p < |b.logs|
    ensures LogOk(AppendForeign(b, t, p, payload))
  {
    var b' := AppendForeign(b, t, p, payload);
    forall q, i | 0 <= q < |b'.logs| && 0 <= i < |b'.logs[q]| ensures RecordOk(b', q, i) {
      if i < |b.logs[q]| { assert RecordOk(b, q, i); }
    }
    forall u | 0 <= u < |b'.txns| ensures OffsetOk(b', u) { assert OffsetOk(b, u); }
  }

  lemma EffectKeepsLog(b: Broker, t: nat, effect: Effect)
    requires LogOk(b) && t < |b.txns|
    ensures LogOk(Apply(b, t, effect))
  {
    match effect {
      case Untouched =>
      case Asked => StatusKeepsLog(b, t, Open(true));
      case Took => StatusKeepsLog(b, t, Landed);
      case Cancelled => StatusKeepsLog(b, t, Dropped);
    }
  }

  /** Requests that end or may end the transaction. */
  lemma RequestKeepsHeld(w: World, steps: seq<Step>, s: Step)
    requires HeldOk(w, steps) && s.Client? && (s.event.CommitTxn? || s.event.AbortTxn?) && Possible(w, s)
    ensures HeldOk(Do(w, s), steps + [s])
  {
    assert (steps + [s])[..|steps|] == steps;
    var b, pr := w.broker, w.producer;
    if Resolvable(b, pr) {
      var t := pr.current.value;
      if s.event.ok {
        StatusKeepsLog(b, t, if s.event.CommitTxn? then Landed else Dropped);
      } else {
        EffectKeepsLog(b, t, s.effect);
      }
    }
  }

  lemma BeginKeepsHeld(w: World, steps: seq<Step>, s: Step)
    requires HeldOk(w, steps) && s.Client? && s.event.Begin? && Possible(w, s)
    ensures HeldOk(Do(w, s), steps + [s])
  {
    assert (steps + [s])[..|steps|] == steps;
    var pc := w.process.local.pc;
    if s.event.ok { BeginKeepsLog(w.broker, Some(Label(pc.epoch, pc.payload))); }
  }

  lemma SendKeepsHeld(w: World, steps: seq<Step>, s: Step)
    requires HeldOk(w, steps) && s.Client? && s.event.Send? && Possible(w, s)
    ensures HeldOk(Do(w, s), steps + [s])
  {
    assert (steps + [s])[..|steps|] == steps;
  }

  lemma OtherEventKeepsHeld(w: World, steps: seq<Step>, s: Step)
    requires HeldOk(w, steps) && s.Client? && Possible(w, s)
    requires !s.event.Begin? && !s.event.Send? && !s.event.CommitTxn? && !s.event.AbortTxn?
    ensures HeldOk(Do(w, s), steps + [s])
  {
    assert (steps + [s])[..|steps|] == steps;
  }

  lemma ConnectKeepsHeld(w: World, steps: seq<Step>, land: bool)
    requires HeldOk(w, steps) && Possible(w, Connect(land))
    ensures HeldOk(Do(w, Connect(land)), steps + [Connect(land)])
  {
    var b, pr := w.broker, w.producer;
    if Resolvable(b, pr) && b.txns[pr.current.value].status.Open? {
      var lands := land && b.txns[pr.current.value].status.requested;
      StatusKeepsLog(b, pr.current.value, if lands then Landed else Dropped);
    }
  }

  lemma OtherStepKeepsHeld(w: World, steps: seq<Step>, s: Step)
    requires HeldOk(w, steps) && !s.Client? && !s.Connect? && Possible(w, s)
    ensures HeldOk(Do(w, s), steps + [s])
  {
    assert (steps + [s])[..|steps|] == steps;
    var b := w.broker;
    match s {
      case Flush => AppendOwnKeepsLog(b, w.producer.current.value, w.producer.queue[0]);
      case Settle(t, land) => StatusKeepsLog(b, t, if land then Landed else Dropped);
      case ForeignBegin => BeginKeepsLog(b, None);
      case ForeignAppend(t, q, payload) => AppendForeignKeepsLog(b, t, q, payload);
      case _ =>
    }
  }

  lemma StepKeepsHeld(w: World, steps: seq<Step>, s: Step)
    requires HeldOk(w, steps) && Possible(w, s)
    ensures HeldOk(Do(w, s), steps + [s])
  {
    if s.Connect? {
      ConnectKeepsHeld(w, steps, s.landLeftover);
    } else if !s.Client? {
      OtherStepKeepsHeld(w, steps, s);
    } else if s.event.Begin? {
      BeginKeepsHeld(w, steps, s);
    } else if s.event.Send? {
      SendKeepsHeld(w, steps, s);
    } else if s.event.CommitTxn? || s.event.AbortTxn? {
      RequestKeepsHeld(w, steps, s);
    } else {
      OtherEventKeepsHeld(w, steps, s);
    }
  }

  lemma {:induction false} RunKeepsHeld(me: nat, topic: string, partitions: nat, steps: seq<Step>)
    requires partitions > 0 && Run(Initial(me, topic, partitions), steps).Some?
    ensures HeldOk(Run(Initial(me, topic, partitions), steps).value, steps)
  {
    if steps != [] {
      var front, s := steps[..|steps| - 1], steps[|steps| - 1];
      RunKeepsHeld(me, topic, partitions, front);
      StepKeepsHeld(Run(Initial(me, topic, partitions), front).value, front, s);
      assert front + [s] == steps;
    }
  }

  /** The transaction has a record in the topic. */
  ghost predicate HasRecord(b: Broker, t: nat) { exists q: nat, i: nat :: InRange(b, q, i) && b.logs[q][i].txn == t }

  /** In every run, disciplined or not: a commit answered with success has committed a record if and only if a `send`
      was answered with success since the transaction began. */
  lemma CommitDeliversIffSent(me: nat, topic: string, partitions: nat, steps: seq<Step>, w: World)
    requires partitions > 0 && Run(Initial(me, topic, partitions), steps) == Some(w)
    requires Possible(w, Quietly(CommitTxn(true)))
    ensures var t, b := w.producer.current.value, Do(w, Quietly(CommitTxn(true))).broker;
            b.txns[t].status.Landed? && (HasRecord(b, t) <==> Handed(steps))
  {
    RunKeepsHeld(me, topic, partitions, steps);
    var t, b := w.producer.current.value, w.broker;
    var b' := Do(w, Quietly(CommitTxn(true))).broker;
    assert b' == SetStatus(b, t, Landed) && OffsetOk(b, t);
    if Handed(steps) {
      assert InRange(b', 0, b.txns[t].at.value);
    } else {
      forall q: nat, i: nat | InRange(b', q, i) ensures b'.logs[q][i].txn != t { assert RecordOk(b, q, i); }
    }
  }
}
