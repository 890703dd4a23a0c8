/** Transactions opened one epoch at a time commit their records in epoch order. */
module KafkaOrder {
  import opened Prelude
  import opened KafkaSinkMachine
  import opened KafkaBroker
  import opened KafkaProtocol
  import opened KafkaInvariant
  import KafkaSteps

  /** Every earlier epoch has landed. */
  ghost predicate LandedBefore(b: Broker, epoch: Epoch) {
    forall e :: 0 <= e < epoch ==> HasLanded(b, e)
  }

  /** No attempt at an epoch exists before all earlier epochs have landed. */
  ghost predicate Backed(b: Broker) {
    forall t {:trigger Own(b, t)} :: Own(b, t) ==> LandedBefore(b, b.txns[t].own.value.epoch)
  }

  /** A landed record precedes every record of a later epoch. */
  predicate PairOrdered(b: Broker, t: nat, u: nat)
    requires Own(b, t) && Own(b, u)
  {
    b.txns[t].status.Landed? && b.txns[t].own.value.epoch < b.txns[u].own.value.epoch && b.txns[u].at.Some? ==>
      b.txns[t].at.Some? && b.txns[t].at.value < b.txns[u].at.value
  }

  ghost predicate Ordered(b: Broker) {
    forall t, u {:trigger Own(b, t), Own(b, u)} :: Own(b, t) && Own(b, u) ==> PairOrdered(b, t, u)
  }

  ghost predicate InSequence(b: Broker) { Backed(b) && Ordered(b) }

  lemma LandedBeforeGrows(b: Broker, b': Broker, epoch: Epoch)
    requires Grows(b, b') && LandedBefore(b, epoch)
    ensures LandedBefore(b', epoch)
  {
    forall e | 0 <= e < epoch ensures HasLanded(b', e) { HasLandedQuiet(b, b', e); }
  }

  lemma BackedQuiet(b: Broker, b': Broker)
    requires Quiet(b, b') && Backed(b)
    ensures Backed(b')
  {
    forall t | Own(b', t) ensures LandedBefore(b', b'.txns[t].own.value.epoch) {
      OwnQuiet(b, b', t);
      LandedBeforeGrows(b, b', b.txns[t].own.value.epoch);
    }
  }

  /** While an attempt can still land, its epoch has not. */
  lemma OpenHasNotLanded(b: Broker, pr: Producer, ledger: Ledger, horizon: Epoch, me: nat, t: nat)
    requires Core(b, pr, ledger, horizon, me) && Own(b, t) && b.txns[t].status.Open?
    ensures !HasLanded(b, b.txns[t].own.value.epoch)
  {
    forall y | OwnOf(b, y, b.txns[t].own.value.epoch) ensures !b.txns[y].status.Landed? {
      assert Own(b, y) && RivalsOk(b, pr, t, y);
    }
  }

  /** So nothing later has been opened yet. */
  lemma NothingLater(b: Broker, pr: Producer, ledger: Ledger, horizon: Epoch, me: nat, t: nat, u: nat)
    requires Core(b, pr, ledger, horizon, me) && Backed(b)
    requires Own(b, t) && Own(b, u) && b.txns[t].status.Open?
    ensures b.txns[u].own.value.epoch <= b.txns[t].own.value.epoch
  {
    OpenHasNotLanded(b, pr, ledger, horizon, me, t);
    assert LandedBefore(b, b.txns[u].own.value.epoch);
  }

  lemma StatusInSequence(b: Broker, pr: Producer, ledger: Ledger, horizon: Epoch, me: nat, t: nat, status: Status)
    requires Core(b, pr, ledger, horizon, me) && InSequence(b)
    requires t < |b.txns| && (b.txns[t].status.Open? || b.txns[t].status == status)
    ensures InSequence(SetStatus(b, t, status))
  {
    var b' := SetStatus(b, t, status);
    SetStatusQuiet(b, t, status, me);
    BackedQuiet(b, b');
    forall x, u | Own(b', x) && Own(b', u) ensures PairOrdered(b', x, u) {
      assert Own(b, x) && Own(b, u) && PairOrdered(b, x, u);
      if x == t && b.txns[t].status.Open? { NothingLater(b, pr, ledger, horizon, me, t, u); }
    }
  }

  /** Growth that adds no own transaction and moves no own record. */
  lemma ForeignInSequence(b: Broker, b': Broker)
    requires InSequence(b) && Quiet(b, b')
    requires forall t {:trigger Own(b, t)} :: Own(b, t) ==>
              b'.txns[t].at == b.txns[t].at && b'.txns[t].status == b.txns[t].status
    ensures InSequence(b')
  {
    BackedQuiet(b, b');
    forall t, u | Own(b', t) && Own(b', u) ensures PairOrdered(b', t, u) {
      OwnQuiet(b, b', t);
      OwnQuiet(b, b', u);
      assert PairOrdered(b, t, u);
    }
  }

  lemma FlushInSequence(b: Broker, pr: Producer, ledger: Ledger, horizon: Epoch, me: nat)
    requires Core(b, pr, ledger, horizon, me) && InSequence(b)
    requires pr.queue != [] && b.txns[pr.current.value].status.Open?
    ensures InSequence(AppendOwn(b, pr.current.value, pr.queue[0]))
  {
    var t := pr.current.value;
    var b' := AppendOwn(b, t, pr.queue[0]);
    FlushKeepsCore(b, pr, ledger, horizon, me);
    BackedQuiet(b, b');
    forall x, u | Own(b', x) && Own(b', u) ensures PairOrdered(b', x, u) {
      assert Own(b, x) && Own(b, u) && PairOrdered(b, x, u);
      assert OwnTxnOk(b, pr, ledger, horizon, x) && TxnOk(b, me, x);
    }
  }

  lemma BeginInSequence(b: Broker, epoch: Epoch, payload: Payload)
    requires InSequence(b) && LandedBefore(b, epoch) && Grows(b, BeginOwn(b, epoch, payload))
    ensures InSequence(BeginOwn(b, epoch, payload))
  {
    var b' := BeginOwn(b, epoch, payload);
    forall t | Own(b', t) ensures LandedBefore(b', b'.txns[t].own.value.epoch) {
      if t < |b.txns| { assert Own(b, t); }
      LandedBeforeGrows(b, b', b'.txns[t].own.value.epoch);
    }
    forall t, u | Own(b', t) && Own(b', u) ensures PairOrdered(b', t, u) {
      if t < |b.txns| && u < |b.txns| { assert Own(b, t) && Own(b, u) && PairOrdered(b, t, u); }
    }
  }

  // ---- Steps ---------------------------------------------------------------------------------------

  lemma BackgroundInSequence(w: World, s: Step)
    requires Inv(w) && Possible(w, s) && InSequence(w.broker)
        && (s.Flush? || s.Settle? || s.ForeignBegin? || s.ForeignAppend?)
    ensures InSequence(Do(w, s).broker)
  {
    var b, pr := w.broker, w.producer;
    match s {
      case Flush => FlushInSequence(b, pr, w.ledger, w.horizon, w.me);
      case Settle(t, land) => StatusInSequence(b, pr, w.ledger, w.horizon, w.me, t, if land then Landed else Dropped);
      case ForeignBegin =>
        ForeignBeginKeepsCore(b, pr, w.ledger, w.horizon, w.me);
        ForeignInSequence(b, Do(w, s).broker);
      case ForeignAppend(t, q, payload) =>
        ForeignAppendKeepsCore(b, pr, w.ledger, w.horizon, w.me, t, q, payload);
        ForeignInSequence(b, Do(w, s).broker);
    }
  }

  lemma ConnectInSequence(w: World, landLeftover: bool)
    requires Inv(w) && w.process.Down? && InSequence(w.broker)
    ensures InSequence(DoConnect(w, landLeftover).broker)
  {
    var b, pr := w.broker, w.producer;
    if Resolvable(b, pr) && b.txns[pr.current.value].status.Open? {
      var t := pr.current.value;
      var status := if landLeftover && b.txns[t].status.requested then Landed else Dropped;
      StatusInSequence(b, pr, w.ledger, w.horizon, w.me, t, status);
    }
  }

  /** Commit and abort requests, whatever they answer. */
  lemma RequestInSequence(w: World, s: Step)
    requires Inv(w) && s.Client? && Possible(w, s) && InSequence(w.broker) && (s.event.CommitTxn? || s.event.AbortTxn?)
    ensures InSequence(Do(w, s).broker)
  {
    var b, pr := w.broker, w.producer;
    if Resolvable(b, pr) {
      var t := pr.current.value;
      if s.event.ok {
        StatusInSequence(b, pr, w.ledger, w.horizon, w.me, t, if s.event.CommitTxn? then Landed else Dropped);
      } else {
        KafkaSteps.ApplyIsSetStatus(b, t, s.effect);
        StatusInSequence(b, pr, w.ledger, w.horizon, w.me, t, KafkaSteps.StatusAfter(b.txns[t].status, s.effect));
      }
    }
  }

  lemma BeginStepInSequence(w: World, s: Step)
    requires Inv(w) && s.Client? && Possible(w, s) && InSequence(w.broker) && s.event.Begin?
    requires w.process.local.pc.StageBegin? || w.process.local.pc.RecoverBegin?
    requires LandedBefore(w.broker, w.process.local.pc.epoch)
    ensures InSequence(Do(w, s).broker)
  {
    var b, pc := w.broker, w.process.local.pc;
    if s.event.ok {
      var b' := BeginOwn(b, pc.epoch, pc.payload);
      assert Grows(b, b');
      BeginInSequence(b, pc.epoch, pc.payload);
    }
  }
}
