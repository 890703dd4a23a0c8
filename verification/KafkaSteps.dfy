/** Every step of the two-phase commit keeps the invariant. */
module KafkaSteps {
  import opened Prelude
  import opened KafkaSinkMachine
  import opened KafkaBroker
  import opened KafkaProtocol
  import opened KafkaInvariant

  // ---- The broker moves while the sink waits ----------------------------------------------------

  /** How an environment step may touch own transactions: outcomes of open ones, or the queued record arriving. */
  ghost predicate Background(b: Broker, pr: Producer, b': Broker, pr': Producer) {
    && Quiet(b, b')
    && pr'.current == pr.current
    && ((pr' == pr && forall t {:trigger Own(b, t)} :: Own(b, t) ==> b'.txns[t].at == b.txns[t].at)
        || (pr.queue != [] && Loaded(b', pr')))
  }

  lemma PhaseSurvives(w: World, w': World, s: Sink, pc: Pc)
    requires Core(w.broker, w.producer, w.ledger, w.horizon, w.me)
    requires Phase(w, s, pc)
    requires Background(w.broker, w.producer, w'.broker, w'.producer) && w'.ledger == w.ledger
    ensures Phase(w', s, pc)
  {
    var b, b', pr := w.broker, w'.broker, w.producer;
    if pr.current.Some? {
      OwnQuiet(b, b', pr.current.value);
      assert TxnGrows(b.txns[pr.current.value], b'.txns[pr.current.value]);
    }
    match pc {
      case Ready(last) =>
        if last.Delivered? { HasLandedQuiet(b, b', last.epoch); }
        if last.Discarded? {
          forall t | OwnOf(b', t, last.epoch) ensures b'.txns[t].status.Dropped? {
            OwnQuiet(b, b', t);
            assert OwnOf(b, t, last.epoch);
          }
        }
      case RecoverBegin(epoch, _) =>
        if pr.current.None? {
          forall t | OwnOf(b', t, epoch) ensures !b'.txns[t].status.Landed? {
            OwnQuiet(b, b', t);
            assert OwnOf(b, t, epoch) && OwnTxnOk(b, pr, w.ledger, w.horizon, t);
          }
        }
      case _ =>
    }
  }

  lemma SinkSurvives(w: World, w': World, s: Sink)
    requires SinkOk(w, s) && Grows(w.broker, w'.broker)
    requires w'.me == w.me && w'.topic == w.topic && w.horizon <= w'.horizon
    ensures SinkOk(w', s)
  {
    forall e | e in s.delivered ensures HasLanded(w'.broker, e) { HasLandedQuiet(w.broker, w'.broker, e); }
  }

  lemma ProcessSurvives(w: World, w': World)
    requires Inv(w) && Background(w.broker, w.producer, w'.broker, w'.producer)
    requires w' == w.(broker := w'.broker, producer := w'.producer)
    ensures ProcessOk(w')
  {
    if w.process.Up? {
      var l := w.process.local;
      SinkSurvives(w, w', l.sink);
      PhaseSurvives(w, w', l.sink, l.pc);
      if l.pc.Lookup? {
        ScanSurvives(w.broker, w'.broker, w.producer, w'.producer, w.process.consumer, w.me, l.pc.epoch, l.pc.scan);
      }
    }
  }

  lemma BackgroundKeepsInv(w: World, s: Step)
    requires Inv(w) && Possible(w, s) && (s.Flush? || s.Settle? || s.ForeignBegin? || s.ForeignAppend?)
    ensures Inv(Do(w, s))
  {
    var b, pr := w.broker, w.producer;
    match s {
      case Flush => FlushKeepsCore(b, pr, w.ledger, w.horizon, w.me);
      case Settle(t, land) =>
        var status := if land then Landed else Dropped;
        SetStatusQuiet(b, t, status, w.me);
        if Own(b, t) { assert OwnTxnOk(b, pr, w.ledger, w.horizon, t); }
        StatusKeepsCore(b, pr, pr, w.ledger, w.horizon, w.me, t, status);
      case ForeignBegin => ForeignBeginKeepsCore(b, pr, w.ledger, w.horizon, w.me);
      case ForeignAppend(t, q, payload) => ForeignAppendKeepsCore(b, pr, w.ledger, w.horizon, w.me, t, q, payload);
    }
    ProcessSurvives(w, Do(w, s));
  }

  // ---- Crashes and reconnects -------------------------------------------------------------------

  lemma ConnectKeepsInv(w: World, landLeftover: bool)
    requires Inv(w) && w.process.Down?
    ensures Inv(DoConnect(w, landLeftover))
  {
    var b, pr := w.broker, w.producer;
    if Resolvable(b, pr) && b.txns[pr.current.value].status.Open? {
      var t := pr.current.value;
      assert Own(b, t) && OwnTxnOk(b, pr, w.ledger, w.horizon, t);
      var status := if landLeftover && b.txns[t].status.requested then Landed else Dropped;
      StatusKeepsCore(b, pr, Producer(None, []), w.ledger, w.horizon, w.me, t, status);
    } else if pr.current.Some? {
      var t := pr.current.value;
      assert Own(b, t) && OwnTxnOk(b, pr, w.ledger, w.horizon, t);
      StatusKeepsCore(b, pr, Producer(None, []), w.ledger, w.horizon, w.me, t, b.txns[t].status);
      assert b.txns[t := b.txns[t].(status := b.txns[t].status)] == b.txns;
      assert SetStatus(b, t, b.txns[t].status) == b;
    }
  }

  // ---- Durable writes of the driver -------------------------------------------------------------

  lemma PersistKeepsInv(w: World)
    requires Inv(w) && Possible(w, Persist)
    ensures Inv(Do(w, Persist))
  {
    var b, pr, w' := w.broker, w.producer, Do(w, Persist);
    var epoch := w.process.local.pc.last.epoch;
    forall t | Own(b, t) ensures OwnTxnOk(b, pr, w'.ledger, w.horizon, t) {
      assert OwnTxnOk(b, pr, w.ledger, w.horizon, t);
    }
    forall t, u | Own(b, t) && Own(b, u) ensures RivalsOk(b, pr, t, u) {
      assert RivalsOk(b, pr, t, u);
    }
  }

  lemma ForgetKeepsInv(w: World)
    requires Inv(w) && Possible(w, Forget)
    ensures Inv(Do(w, Forget))
  {
    var b, pr, w' := w.broker, w.producer, Do(w, Forget);
    var epoch := w.process.local.pc.last.epoch;
    forall t | Own(b, t) ensures OwnTxnOk(b, pr, w'.ledger, w.horizon, t) {
      assert OwnTxnOk(b, pr, w.ledger, w.horizon, t);
      if OwnOf(b, t, epoch) { assert b.txns[t].status.Dropped?; }
    }
    forall t, u | Own(b, t) && Own(b, u) ensures RivalsOk(b, pr, t, u) {
      assert RivalsOk(b, pr, t, u);
    }
    assert epoch !in w.ledger.done;
  }

  lemma ConfirmKeepsInv(w: World)
    requires Inv(w) && Possible(w, Confirm)
    ensures Inv(Do(w, Confirm))
  {
    var b, pr, w' := w.broker, w.producer, Do(w, Confirm);
    forall t | Own(b, t) ensures OwnTxnOk(b, pr, w'.ledger, w.horizon, t) {
      assert OwnTxnOk(b, pr, w.ledger, w.horizon, t);
    }
  }

  // ---- Calls -----------------------------------------------------------------------------------

  lemma HorizonKeepsCore(b: Broker, pr: Producer, ledger: Ledger, horizon: Epoch, horizon': Epoch, me: nat)
    requires Core(b, pr, ledger, horizon, me) && horizon <= horizon'
    ensures Core(b, pr, ledger, horizon', me)
  {
    forall t | Own(b, t) ensures OwnTxnOk(b, pr, ledger, horizon', t) {
      assert OwnTxnOk(b, pr, ledger, horizon, t);
    }
  }

  /** A recovery starts its lookup with nothing captured and nothing read. */
  lemma FreshScan(b: Broker, pr: Producer, me: nat, epoch: Epoch)
    requires WellFormed(b, me)
    ensures Scanning(b, pr, Consumer([], [], seq(|b.logs|, _ => 0)), me, epoch, Setup)
  {
  }

  lemma StageCallKeepsInv(w: World, s: Step)
    requires Inv(w) && Possible(w, s) && s.Client? && Allowed(w, s)
    requires s.event.PreCommitPayloadCall?
    ensures Inv(Do(w, s))
  {
  }

  lemma CommitCallKeepsInv(w: World, s: Step)
    requires Inv(w) && Possible(w, s) && s.Client? && Allowed(w, s)
    requires s.event.CommitCall? || s.event.AbortCall?
    ensures Inv(Do(w, s))
  {
  }

  lemma RecoverCallKeepsInv(w: World, s: Step)
    requires Inv(w) && Possible(w, s) && s.Client? && Allowed(w, s)
    requires s.event.RecoverCall?
    ensures Inv(Do(w, s))
  {
    FreshScan(w.broker, w.producer, w.me, s.event.epoch);
  }

  lemma OtherCallKeepsInv(w: World, s: Step)
    requires Inv(w) && Possible(w, s) && s.Client? && Allowed(w, s)
    requires s.event.NoopRecoverCall? || s.event.SetClusterCommitted?
    ensures Inv(Do(w, s))
  {
    if s.event.SetClusterCommitted? {
      HorizonKeepsCore(w.broker, w.producer, w.ledger, w.horizon, Max(w.horizon, s.event.epoch), w.me);
    }
  }

  // ---- Answers of transactional requests ---------------------------------------------------------

  lemma BeginKeepsInv(w: World, s: Step)
    requires Inv(w) && Possible(w, s) && s.Client? && s.event.Begin?
    ensures Inv(Do(w, s))
  {
    var b, pr, pc := w.broker, w.producer, w.process.local.pc;
    if s.event.ok {
      if pc.StageBegin? {
        forall t | OwnOf(b, t, pc.epoch) ensures !b.txns[t].status.Landed? {
          assert Own(b, t) && OwnTxnOk(b, pr, w.ledger, w.horizon, t);
        }
      }
      BeginKeepsCore(b, pr, w.ledger, w.horizon, w.me, pc.epoch, pc.payload);
      SinkSurvives(w, Do(w, s), w.process.local.sink);
    }
  }

  lemma SendKeepsInv(w: World, s: Step)
    requires Inv(w) && Possible(w, s) && s.Client? && s.event.Send?
    ensures Inv(Do(w, s))
  {
    var b, pr, pr' := w.broker, w.producer, Do(w, s).producer;
    if s.event.ok {
      assert pr'.queue == [w.process.local.pc.payload];
      forall t | Own(b, t) ensures OwnTxnOk(b, pr', w.ledger, w.horizon, t) {
        assert OwnTxnOk(b, pr, w.ledger, w.horizon, t);
      }
      forall t, u | Own(b, t) && Own(b, u) ensures RivalsOk(b, pr', t, u) {
        assert RivalsOk(b, pr, t, u);
      }
    }
  }

  /** The current transaction, when it may be committed: its record is in the log and the ledger covers it. */
  lemma CommittableCurrent(w: World)
    requires Inv(w) && w.process.Up? && (w.process.local.pc.CommitOpen? || w.process.local.pc.RecoverCommit?)
    ensures var b, pr, pc := w.broker, w.producer, w.process.local.pc;
            && pr.current.Some? && OwnOf(b, pr.current.value, pc.epoch)
            && pc.epoch in w.ledger.handles && pc.epoch <= w.horizon
            && (pr.queue == [] ==> b.txns[pr.current.value].at.Some?)
  {
  }

  lemma CommitOkKeepsInv(w: World, s: Step)
    requires Inv(w) && Possible(w, s) && s.Client? && s.event.CommitTxn? && s.event.ok
    ensures Inv(Do(w, s))
  {
    var b, pr, pc, w' := w.broker, w.producer, w.process.local.pc, Do(w, s);
    CommittableCurrent(w);
    var t := pr.current.value;
    SetStatusQuiet(b, t, Landed, w.me);
    StatusKeepsCore(b, pr, Producer(None, []), w.ledger, w.horizon, w.me, t, Landed);
    SinkSurvives(w, w', w.process.local.sink);
    assert OwnOf(w'.broker, t, pc.epoch) && w'.broker.txns[t].status.Landed?;
  }

  /** The broker state after a failed request, as a status change of the current transaction. */
  function StatusAfter(status: Status, effect: Effect): Status {
    match effect
    case Untouched => status
    case Asked => Open(true)
    case Took => Landed
    case Cancelled => Dropped
  }

  lemma ApplyIsSetStatus(b: Broker, t: nat, effect: Effect)
    requires t < |b.txns|
    ensures Apply(b, t, effect) == SetStatus(b, t, StatusAfter(b.txns[t].status, effect))
  {
    if effect.Untouched? { assert b.txns[t := b.txns[t].(status := b.txns[t].status)] == b.txns; }
  }

  /** A failed commit or abort request leaves the producer holding the transaction unless it is resolved. */
  lemma FailedRequestKeepsCore(w: World, s: Step)
    requires Inv(w) && Possible(w, s) && s.Client? && (s.event.CommitTxn? || s.event.AbortTxn?) && !s.event.ok
    requires Resolvable(w.broker, w.producer)
    ensures var w' := Do(w, s);
            Core(w'.broker, w'.producer, w.ledger, w.horizon, w.me) && Grows(w.broker, w'.broker)
  {
    var b, pr, t := w.broker, w.producer, w.producer.current.value;
    if s.event.CommitTxn? { CommittableCurrent(w); }
    var status := StatusAfter(b.txns[t].status, s.effect);
    ApplyIsSetStatus(b, t, s.effect);
    assert Own(b, t) && OwnTxnOk(b, pr, w.ledger, w.horizon, t);
    SetStatusQuiet(b, t, status, w.me);
    StatusKeepsCore(b, pr, Do(w, s).producer, w.ledger, w.horizon, w.me, t, status);
  }

  lemma FailedRequestFails(s: Sink, pc: Pc, ev: Event)
    requires (ev.CommitTxn? || ev.AbortTxn?) && !ev.ok && !pc.Ready? && !pc.Lookup? && Next(Local(s, pc), ev).Some?
    ensures var l := Next(Local(s, pc), ev).value; l.sink == s && l.pc.Ready? && l.pc.last.Failed?
  {
  }

  lemma FailedRequestKeepsInv(w: World, s: Step)
    requires Inv(w) && Possible(w, s) && s.Client? && (s.event.CommitTxn? || s.event.AbortTxn?) && !s.event.ok
    ensures Inv(Do(w, s))
  {
    var w' := Do(w, s);
    FailedRequestFails(w.process.local.sink, w.process.local.pc, s.event);
    if Resolvable(w.broker, w.producer) {
      FailedRequestKeepsCore(w, s);
    } else {
      assert w'.broker == w.broker && w'.producer == w.producer;
    }
    SinkSurvives(w, w', w.process.local.sink);
  }

  lemma AbortOkKeepsInv(w: World, s: Step)
    requires Inv(w) && Possible(w, s) && s.Client? && s.event.AbortTxn? && s.event.ok
    ensures Inv(Do(w, s))
  {
    var b, pr, pc, w' := w.broker, w.producer, w.process.local.pc, Do(w, s);
    var t := pr.current.value;
    SetStatusQuiet(b, t, Dropped, w.me);
    StatusKeepsCore(b, pr, Producer(None, []), w.ledger, w.horizon, w.me, t, Dropped);
    SinkSurvives(w, w', w.process.local.sink);
    if pc.AbortOpen? {
      forall u | OwnOf(w'.broker, u, pc.epoch) ensures w'.broker.txns[u].status.Dropped? {
        assert Own(b, t) && Own(b, u) && RivalsOk(b, pr, t, u);
      }
    }
  }
}
