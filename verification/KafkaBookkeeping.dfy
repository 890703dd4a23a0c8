/** The staged-epoch fill level over whole call sequences, with every answer the broker may give. */
module KafkaBookkeeping {
  import opened Prelude
  import opened KafkaSinkMachine
  import opened KafkaBroker
  import opened KafkaProtocol
  import opened KafkaRuns

  /** A commit or abort that names an epoch the sink has not staged. */
  predicate Misnames(l: Local, ev: Event) {
    (ev.CommitCall? || ev.AbortCall?) && ev.epoch !in l.sink.staged
  }

  /** How many commits and aborts of a trace name an epoch that is not staged when they are called. */
  function Misnamed(l: Local, events: seq<Event>): nat {
    if events == [] then 0
    else
      var before := Trace(l, events[..|events| - 1]);
      Misnamed(l, events[..|events| - 1])
      + if before.Some? && Misnames(before.value, events[|events| - 1]) then 1 else 0
  }

  /** `slack` bounds how far the counter may lag behind the set of staged epochs; a call in flight that will
      drop the counter for an epoch outside the set has already been charged to it. */
  predicate FillLevel(l: Local, slack: nat) {
    var s := l.sink;
    && s.count <= s.maxStaged
    && s.count <= |s.staged| <= s.count + slack
    && (l.pc.StageBegin? || l.pc.StageSend? ==> s.count < s.maxStaged && l.pc.epoch !in s.staged)
    && (l.pc.CommitOpen? || l.pc.AbortOpen? ==> l.pc.epoch in s.staged || |s.staged| < s.count + slack)
  }

  lemma RemoveStaged(staged: set<Epoch>, epoch: Epoch)
    ensures |staged - {epoch}| == if epoch in staged then |staged| - 1 else |staged|
  {
    if epoch !in staged { assert staged - {epoch} == staged; }
  }

  lemma CommitOrAbortKeepsFillLevel(s: Sink, last: Outcome, ev: Event, slack: nat)
    requires FillLevel(Local(s, Ready(last)), slack) && (ev.CommitCall? || ev.AbortCall?)
    ensures FillLevel(NextCall(s, last, ev).value, slack + if ev.epoch in s.staged then 0 else 1)
  {
    RemoveStaged(s.staged, ev.epoch);
  }

  lemma RecoverKeepsFillLevel(s: Sink, epoch: Epoch, handle: Handle, slack: nat)
    requires FillLevel(Local(s, Ready(NoCall)), slack)
    ensures FillLevel(EnterRecover(s, epoch, handle), slack)
  {
    RemoveStaged(s.staged, epoch);
  }

  lemma CallKeepsFillLevel(s: Sink, last: Outcome, ev: Event, slack: nat)
    requires FillLevel(Local(s, Ready(last)), slack) && NextCall(s, last, ev).Some?
    ensures FillLevel(NextCall(s, last, ev).value, slack + if Misnames(Local(s, Ready(last)), ev) then 1 else 0)
  {
    if ev.CommitCall? || ev.AbortCall? {
      CommitOrAbortKeepsFillLevel(s, last, ev, slack);
    } else if ev.RecoverCall? {
      RecoverKeepsFillLevel(s, ev.epoch, ev.handle, slack);
    }
  }

  lemma LookupKeepsFillLevel(l: Local, ev: Event, slack: nat)
    requires FillLevel(l, slack) && l.pc.Lookup? && NextLookup(l, ev).Some?
    ensures FillLevel(NextLookup(l, ev).value, slack)
  {
    RemoveStaged(l.sink.staged, l.pc.epoch);
  }

  lemma AnswerKeepsFillLevel(s: Sink, pc: Pc, ev: Event, slack: nat)
    requires FillLevel(Local(s, pc), slack) && NextAnswer(s, pc, ev).Some?
    ensures FillLevel(NextAnswer(s, pc, ev).value, slack)
  {
    if pc.CommitOpen? || pc.AbortOpen? || pc.RecoverCommit? {
      ClosingAnswerKeepsFillLevel(s, pc, ev, slack);
    }
  }

  lemma ClosingAnswerKeepsFillLevel(s: Sink, pc: Pc, ev: Event, slack: nat)
    requires FillLevel(Local(s, pc), slack) && NextAnswer(s, pc, ev).Some?
    requires pc.CommitOpen? || pc.AbortOpen? || pc.RecoverCommit?
    ensures FillLevel(NextAnswer(s, pc, ev).value, slack)
  {
    RemoveStaged(s.staged, pc.epoch);
  }

  lemma StepKeepsFillLevel(l: Local, ev: Event, slack: nat)
    requires FillLevel(l, slack) && Next(l, ev).Some?
    ensures FillLevel(Next(l, ev).value, slack + if Misnames(l, ev) then 1 else 0)
    ensures Next(l, ev).value.sink.maxStaged == l.sink.maxStaged
  {
    if l.pc.Ready? {
      CallKeepsFillLevel(l.sink, l.pc.last, ev, slack);
    } else if l.pc.Lookup? {
      LookupKeepsFillLevel(l, ev, slack);
    } else {
      AnswerKeepsFillLevel(l.sink, l.pc, ev, slack);
    }
  }

  /** In every call sequence the counter never exceeds the maximum nor the number of staged epochs, and it lags
      behind that number by at most the number of commits and aborts that named an epoch that was not staged. */
  lemma {:induction false} StagedCountFollowsStagedSet(connector: nat, topic: Option<string>, events: seq<Event>)
    requires Trace(Local(FreshSink(connector, topic), Ready(NoCall)), events).Some?
    ensures var start := Local(FreshSink(connector, topic), Ready(NoCall));
            var s := Trace(start, events).value.sink;
            && s.count <= MAX_STAGED_EPOCHS
            && s.count <= |s.staged| <= s.count + Misnamed(start, events)
  {
    TraceKeepsFillLevel(Local(FreshSink(connector, topic), Ready(NoCall)), events);
  }

  lemma {:induction false} TraceKeepsFillLevel(start: Local, events: seq<Event>)
    requires FillLevel(start, 0) && Trace(start, events).Some?
    ensures FillLevel(Trace(start, events).value, Misnamed(start, events))
    ensures Trace(start, events).value.sink.maxStaged == start.sink.maxStaged
  {
    if events != [] {
      var prefix := events[..|events| - 1];
      TraceKeepsFillLevel(start, prefix);
      StepKeepsFillLevel(Trace(start, prefix).value, events[|events| - 1], Misnamed(start, prefix));
    }
  }

  /** When every commit and abort names a staged epoch, the counter is exactly the number of staged epochs. */
  lemma StagedCountIsExact(connector: nat, topic: Option<string>, events: seq<Event>)
    requires Trace(Local(FreshSink(connector, topic), Ready(NoCall)), events).Some?
    requires Misnamed(Local(FreshSink(connector, topic), Ready(NoCall)), events) == 0
    ensures var s := Trace(Local(FreshSink(connector, topic), Ready(NoCall)), events).value.sink;
            s.count == |s.staged| <= MAX_STAGED_EPOCHS
  {
    StagedCountFollowsStagedSet(connector, topic, events);
  }

  // ---- Exactly when the counter is exact -----------------------------------------------------------------

  predicate Exact(l: Local) { l.sink.count == |l.sink.staged| }

  /** The epoch whose commit or abort the event completes. */
  function Closed(l: Local, ev: Event): Option<Epoch> {
    var s := l.sink;
    match l.pc
    case Ready(_) =>
      if s.topic.Some? then None
      else if ev.AbortCall? then Some(ev.epoch)
      else if ev.CommitCall? && ev.epoch <= s.clusterCommitted && ev.epoch !in s.delivered && !ev.state.Idle?
          && !ev.fault
      then Some(ev.epoch)
      else None
    case CommitOpen(epoch) => if ev.CommitTxn? && ev.ok then Some(epoch) else None
    case AbortOpen(epoch) => if ev.AbortTxn? && ev.ok then Some(epoch) else None
    case _ => None
  }

  /** The event completes a commit or abort of an epoch that is not staged, and the counter drops. */
  predicate Slips(l: Local, ev: Event) {
    Closed(l, ev).Some? && Closed(l, ev).value !in l.sink.staged && l.sink.count > 0
  }

  /** An epoch about to be staged is not staged yet. */
  predicate StagesNew(l: Local) { l.pc.StageBegin? || l.pc.StageSend? ==> l.pc.epoch !in l.sink.staged }

  lemma CommitCallExactIff(s: Sink, last: Outcome, ev: Event)
    requires Exact(Local(s, Ready(last))) && ev.CommitCall?
    ensures Exact(EnterCommit(s, ev.epoch, ev.state, ev.fault)) <==> !Slips(Local(s, Ready(last)), ev)
  {
    RemoveStaged(s.staged, ev.epoch);
  }

  lemma AbortCallExactIff(s: Sink, last: Outcome, ev: Event)
    requires Exact(Local(s, Ready(last))) && ev.AbortCall?
    ensures Exact(EnterAbort(s, ev.epoch)) <==> !Slips(Local(s, Ready(last)), ev)
  {
    RemoveStaged(s.staged, ev.epoch);
  }

  lemma RecoverCallExact(s: Sink, last: Outcome, epoch: Epoch, handle: Handle)
    requires Exact(Local(s, Ready(last)))
    ensures Exact(EnterRecover(s, epoch, handle))
  {
    RemoveStaged(s.staged, epoch);
  }

  lemma CallExactIff(s: Sink, last: Outcome, ev: Event)
    requires Exact(Local(s, Ready(last))) && NextCall(s, last, ev).Some?
    ensures Exact(NextCall(s, last, ev).value) <==> !Slips(Local(s, Ready(last)), ev)
  {
    if ev.CommitCall? {
      CommitCallExactIff(s, last, ev);
    } else if ev.AbortCall? {
      AbortCallExactIff(s, last, ev);
    } else if ev.RecoverCall? {
      RecoverCallExact(s, last, ev.epoch, ev.handle);
    }
  }

  lemma LookupExact(l: Local, ev: Event)
    requires Exact(l) && l.pc.Lookup? && NextLookup(l, ev).Some?
    ensures Exact(NextLookup(l, ev).value)
  {
    RemoveStaged(l.sink.staged, l.pc.epoch);
  }

  lemma AnswerExactIff(s: Sink, pc: Pc, ev: Event)
    requires Exact(Local(s, pc)) && StagesNew(Local(s, pc)) && !pc.Ready? && NextAnswer(s, pc, ev).Some?
    ensures Exact(NextAnswer(s, pc, ev).value) <==> !Slips(Local(s, pc), ev)
  {
    if pc.CommitOpen? || pc.AbortOpen? || pc.RecoverCommit? { RemoveStaged(s.staged, pc.epoch); }
  }

  /** A step keeps the counter exact if and only if it does not complete a commit or abort of an unstaged epoch with
      the counter above zero. */
  lemma StepExactIff(l: Local, ev: Event)
    requires Exact(l) && StagesNew(l) && Next(l, ev).Some?
    ensures Exact(Next(l, ev).value) <==> !Slips(l, ev)
  {
    if l.pc.Ready? {
      CallExactIff(l.sink, l.pc.last, ev);
    } else if l.pc.Lookup? {
      LookupExact(l, ev);
    } else {
      AnswerExactIff(l.sink, l.pc, ev);
    }
  }

  /** The counter is exact after every event of the trace. */
  predicate AlwaysExact(l: Local, events: seq<Event>)
    requires Trace(l, events).Some?
  {
    Exact(Trace(l, events).value) && (events != [] ==> AlwaysExact(l, events[..|events| - 1]))
  }

  predicate NeverSlips(l: Local, events: seq<Event>)
    requires Trace(l, events).Some?
  {
    events != [] ==>
      var front := events[..|events| - 1];
      NeverSlips(l, front) && !Slips(Trace(l, front).value, events[|events| - 1])
  }

  /** Over every call sequence: the counter is the number of staged epochs throughout if and only if no event
      completes a commit or abort of an unstaged epoch while the counter is above zero. */
  lemma {:induction false} CountAlwaysExactIff(connector: nat, topic: Option<string>, events: seq<Event>)
    requires Trace(Local(FreshSink(connector, topic), Ready(NoCall)), events).Some?
    ensures var start := Local(FreshSink(connector, topic), Ready(NoCall));
            AlwaysExact(start, events) <==> NeverSlips(start, events)
  {
    var start := Local(FreshSink(connector, topic), Ready(NoCall));
    if events != [] {
      var front := events[..|events| - 1];
      CountAlwaysExactIff(connector, topic, front);
      TraceKeepsFillLevel(start, front);
      if NeverSlips(start, front) {
        StepExactIff(Trace(start, front).value, events[|events| - 1]);
      }
    }
  }

  // ---- Backpressure defeated -------------------------------------------------------------------------

  /** A connected sink between calls that has staged k epochs, all below 2k, while its counter is zero. */
  predicate Drifted(w: World, k: nat) {
    && w.me == 7 && w.process.Up? && w.process.local.pc.Ready? && w.producer == Producer(None, [])
        && |w.broker.logs| == 1
    && var s := w.process.local.sink;
       && s.connector == 7 && s.topic.Some? && s.maxStaged == MAX_STAGED_EPOCHS && s.count == 0
       && |s.staged| == k && (forall e :: e in s.staged ==> e < 2 * k) && (forall e :: e in s.delivered ==> e < 2 * k)
  }

  function EnvelopeOf(epoch: Epoch): Payload { Payload(Some(7), Some(epoch), Text("rows")) }

  /** Staging epoch 2k opens and loads a transaction. */
  lemma DriftStage(start: World, run: seq<Step>, w: World, k: nat) returns (run': seq<Step>, w': World)
    requires Drifted(w, k) && Run(start, run) == Some(w)
    ensures Run(start, run') == Some(w')
    ensures var s, t := w.process.local.sink, 2 * k;
            var handle := RowHandle(7, s.topic.value, t, EnvelopeOf(t));
            w' == AtPc(w, AfterStage(s, t), Ready(Staged(t, PreCommitted(0, handle))))
                    .(broker := BeginOwn(w.broker, t, EnvelopeOf(t)),
                        producer := Producer(Some(|w.broker.txns|), [EnvelopeOf(t)]))
  {
    var s, t := w.process.local.sink, 2 * k;
    var payload := EnvelopeOf(t);
    var handle := RowHandle(7, s.topic.value, t, payload);
    var call := Quietly(PreCommitPayloadCall(t, 0, payload));
    StageStep(w, s, w.process.local.pc.last, t, payload);
    RunMore(start, run, w, call);
    var w1 := Do(w, call);
    BeginStep(w1, s, t, 0, payload, handle);
    RunMore(start, run + [call], w1, Quietly(Begin(true)));
    var w2 := Do(w1, Quietly(Begin(true)));
    SendStep(w2, s, t, 0, payload, handle);
    RunMore(start, run + [call] + [Quietly(Begin(true))], w2, Quietly(Send(true)));
    run', w' := run + [call] + [Quietly(Begin(true))] + [Quietly(Send(true))], Do(w2, Quietly(Send(true)));
  }

  /** The commit of epoch 2k + 1, which was never staged, commits that transaction and drops the counter. */
  lemma DriftCommit(start: World, run: seq<Step>, w: World, s: Sink, t: Epoch, payload: Payload)
    returns (run': seq<Step>, w': World)
    requires Run(start, run) == Some(w) && w.process.Up? && w.process.local.sink == s && w.process.local.pc.Ready?
    requires s.topic.Some? && t !in s.delivered && w.producer.queue == [payload] && Resolvable(w.broker, w.producer)
    requires |w.broker.logs| == 1
    requires var txn := w.broker.txns[w.producer.current.value]; txn.status.Open? && txn.at.None?
    ensures Run(start, run') == Some(w') && w'.me == w.me && w'.producer == Producer(None, []) && |w'.broker.logs| == 1
    ensures w'.process.Up? && w'.process.local.pc.Ready?
        && w'.process.local.sink == AfterCommit(s.(clusterCommitted := t), t)
  {
    var last, state := w.process.local.pc.last, PreCommitted(0, LegacyHandle(0));
    var checkpoint, call := Quietly(SetClusterCommitted(t)), Quietly(CommitCall(t, state, false));
    CheckpointStep(w, s, last, t);
    RunMore(start, run, w, checkpoint);
    var w1, s1 := Do(w, checkpoint), s.(clusterCommitted := t);
    CommitCallStep(w1, s1, last, t, state);
    RunMore(start, run + [checkpoint], w1, call);
    var w2 := Do(w1, call);
    FlushStep(w2, payload);
    RunMore(start, run + [checkpoint] + [call], w2, Flush);
    var w3 := Do(w2, Flush);
    CommitAnswerStep(w3, s1, t);
    run' := run + [checkpoint] + [call] + [Flush];
    RunMore(start, run', w3, Quietly(CommitTxn(true)));
    run', w' := run' + [Quietly(CommitTxn(true))], Do(w3, Quietly(CommitTxn(true)));
  }

  lemma Drift(start: World, run: seq<Step>, w: World, k: nat) returns (run': seq<Step>, w': World)
    requires Drifted(w, k) && Run(start, run) == Some(w)
    ensures Drifted(w', k + 1) && Run(start, run') == Some(w')
  {
    var s, t := w.process.local.sink, 2 * k;
    var run1, w1 := DriftStage(start, run, w, k);
    run', w' := DriftCommit(start, run1, w1, AfterStage(s, t), t + 1, EnvelopeOf(t));
    RemoveStaged(s.staged + {t}, t + 1);
  }

  /** Backpressure can be defeated without bound on a connected sink: a driver that commits epochs it never staged
      gets any number of epochs staged while the counter stays at zero. */
  lemma MisnamedCommitsDefeatBackpressure(n: nat) returns (run: seq<Step>, w: World)
    ensures Run(Initial(7, "view", 1), run) == Some(w)
    ensures w.process.Up? && w.process.local.sink.topic.Some? && w.process.local.sink.maxStaged == MAX_STAGED_EPOCHS
    ensures |w.process.local.sink.staged| == n && w.process.local.sink.count == 0
  {
    var start := Initial(7, "view", 1);
    RunMore(start, [], start, Connect(false));
    run, w := [] + [Connect(false)], Do(start, Connect(false));
    for k := 0 to n
      invariant Drifted(w, k) && Run(start, run) == Some(w)
    {
      run, w := Drift(start, run, w, k);
    }
  }
}
